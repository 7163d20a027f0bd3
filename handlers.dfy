/**
 The request handlers of the route/schedule catalogue (main.py) as
 operations on an in-memory store of the three tables. Each mutating
 handler is a method of `Store` that either applies its insert, update or
 cascading delete, or returns an error outcome and leaves the store as it
 was; the public timetable page is `Store.ViewSchedule`.
 */
module Handlers {
  import opened Models

  /** The table a missing row was looked up in. */
  datatype Table = Routes | Schedules

  /** What a handler reports back instead of rendering a page. */
  datatype Outcome =
    | Ok
    | NotFound(table: Table)
    | Conflict
    | PrivacyNotAgreed

  /** One entry of the timetable page: a route and the ids of its shown schedules. */
  datatype RouteEntry = RouteEntry(route: Route, schedules: seq<int>)

  predicate Increasing(ids: seq<int>)
  {
    forall i, j :: 0 <= i < j < |ids| ==> ids[i] < ids[j]
  }

  /** Every key of `m` is an id the table's counter has already handed out. */
  predicate IdsBelow<T>(m: map<int, T>, next: int)
  {
    && 1 <= next
    && forall id :: id in m ==> 0 < id < next
  }

  /**
   Keeping the head of an ascending list in front of an ascending selection
   of its tail gives an ascending list.
   */
  lemma PrependIncreasing(ids: seq<int>, rest: seq<int>)
    requires ids != []
    ensures Increasing(ids) && Increasing(rest) && (forall x :: x in rest ==> x in ids[1..]) ==>
      Increasing([ids[0]] + rest)
  {
    if Increasing(ids) && Increasing(rest) && (forall x :: x in rest ==> x in ids[1..]) {
      forall k | 0 <= k < |rest| ensures ids[0] < rest[k] {
        assert rest[k] in rest;
        var j :| 0 <= j < |ids[1..]| && ids[1..][j] == rest[k];
        assert ids[j + 1] == rest[k];
      }
    }
  }

  /** The first element of an ascending list is its least. */
  lemma FirstIsLeast(ids: seq<int>, x: int)
    requires Increasing(ids) && x in ids
    ensures ids[0] <= x
  {
    var j :| 0 <= j < |ids| && ids[j] == x;
    if j > 0 {
      assert ids[0] < ids[j];
    }
  }

  // ---------------------------------------------------------------------
  // Reading a table. The source's queries name no order; the model reads rows
  // back in ascending primary-key order.

  /** The keys of `m` below `n`, in ascending order. */
  function Listing<T>(m: map<int, T>, n: nat): (ids: seq<int>)
    ensures forall i :: i in ids <==> i in m && 0 <= i < n
    ensures Increasing(ids)
  {
    if n == 0 then []
    else
      var prefix := Listing(m, n - 1);
      assert forall k :: 0 <= k < |prefix| ==> prefix[k] in prefix;
      if n - 1 in m then prefix + [n - 1] else prefix
  }

  /** The schedules among `ids` whose active flag is 1, keeping the order of `ids`. */
  function Active(ids: seq<int>, schedules: map<int, Schedule>): (r: seq<int>)
    ensures forall s :: s in r <==> s in ids && s in schedules && schedules[s].isActive == 1
    ensures Increasing(ids) ==> Increasing(r)
  {
    if ids == [] then []
    else
      var rest := Active(ids[1..], schedules);
      if ids[0] in schedules && schedules[ids[0]].isActive == 1 then
        PrependIncreasing(ids, rest);
        [ids[0]] + rest
      else rest
  }

  /** The schedules among `ids` whose route is `rid`, keeping the order of `ids`. */
  function OnRoute(ids: seq<int>, schedules: map<int, Schedule>, rid: int): (r: seq<int>)
    ensures forall s :: s in r <==> s in ids && s in schedules && schedules[s].routeId == rid
    ensures Increasing(ids) ==> Increasing(r)
  {
    if ids == [] then []
    else
      var rest := OnRoute(ids[1..], schedules, rid);
      if ids[0] in schedules && schedules[ids[0]].routeId == rid then
        PrependIncreasing(ids, rest);
        [ids[0]] + rest
      else rest
  }

  /**
   The timetable grouping of `view_schedule`: one entry per route, holding
   the active schedules (among ids below `n`) that reference that route,
   in ascending id order.
   */
  function GroupSchedules(routes: map<int, Route>, schedules: map<int, Schedule>, n: nat): (view: map<int, RouteEntry>)
    ensures view.Keys == routes.Keys
    ensures forall rid :: rid in view ==> view[rid].route == routes[rid] && Increasing(view[rid].schedules)
    ensures forall rid, s :: rid in view ==>
      (s in view[rid].schedules <==>
         s in schedules && 0 <= s < n && schedules[s].routeId == rid && schedules[s].isActive == 1)
  {
    var active := Active(Listing(schedules, n), schedules);
    map rid | rid in routes :: RouteEntry(routes[rid], OnRoute(active, schedules, rid))
  }

  /**
   Two ascending id lists with the same members are the same list, so the
   contract of `GroupSchedules` fixes each entry's list completely.
   */
  lemma {:induction false} IncreasingUnique(a: seq<int>, b: seq<int>)
    requires Increasing(a) && Increasing(b)
    requires forall x :: x in a <==> x in b
    ensures a == b
  {
    if a != [] {
      assert a[0] in a;
    }
    if b != [] {
      assert b[0] in b;
    }
    if a != [] && b != [] {
      FirstIsLeast(a, b[0]);
      FirstIsLeast(b, a[0]);
      forall x | x in a[1..] ensures x in b[1..] {
        var j :| 0 <= j < |a[1..]| && a[1..][j] == x;
        assert a[0] < a[j + 1];
        assert x in b && x != b[0];
      }
      forall x | x in b[1..] ensures x in a[1..] {
        var j :| 0 <= j < |b[1..]| && b[1..][j] == x;
        assert b[0] < b[j + 1];
        assert x in a && x != a[0];
      }
      IncreasingUnique(a[1..], b[1..]);
      assert a == [a[0]] + a[1..] && b == [b[0]] + b[1..];
    }
  }

  // ---------------------------------------------------------------------
  // The days-of-week column: `",".join(days_of_week)`.

  /**
   Python's `",".join(days)`: the stored string starts with the first day,
   and when no day contains a comma it holds one exactly when several days
   were checked.
   */
  function JoinDays(days: seq<string>): (s: string)
    ensures days != [] ==> days[0] <= s
    ensures (forall i :: 0 <= i < |days| ==> ',' !in days[i]) ==> (',' in s <==> |days| > 1)
  {
    if |days| == 0 then ""
    else if |days| == 1 then days[0]
    else days[0] + "," + JoinDays(days[1..])
  }

  lemma {:induction false} SplitConcat(d: string, t: string)
    requires ',' !in d
    ensures Split(d + t) == [d + Split(t)[0]] + Split(t)[1..]
  {
    if d != [] {
      assert (d + t)[1..] == d[1..] + t;
      SplitConcat(d[1..], t);
      assert [d[0]] + (d[1..] + Split(t)[0]) == d + Split(t)[0];
    } else {
      assert d + t == t;
      assert d + Split(t)[0] == Split(t)[0];
      assert Split(t) == [Split(t)[0]] + Split(t)[1..];
    }
  }

  /** Joining comma-free pieces and splitting again gives the pieces back. */
  lemma {:induction false} SplitJoin(days: seq<string>)
    requires |days| >= 1
    requires forall i :: 0 <= i < |days| ==> ',' !in days[i]
    ensures Split(JoinDays(days)) == days
  {
    if |days| == 1 {
      SplitConcat(days[0], "");
      assert days[0] + "" == days[0];
    } else {
      SplitJoin(days[1..]);
      var t := "," + JoinDays(days[1..]);
      assert days[0] + "," + JoinDays(days[1..]) == days[0] + t;
      SplitConcat(days[0], t);
      assert t[1..] == JoinDays(days[1..]);
      assert days[0] + "" == days[0];
      assert days == [days[0]] + days[1..];
    }
  }

  /** Every string is the join of its comma-separated pieces. */
  lemma {:induction false} JoinSplit(s: string)
    ensures JoinDays(Split(s)) == s
  {
    if s != [] {
      JoinSplit(s[1..]);
      var rest := Split(s[1..]);
      if s[0] == ',' {
        assert ([""] + rest)[1..] == rest;
        assert s == [s[0]] + s[1..];
      } else if |rest| == 1 {
        assert s == [s[0]] + s[1..];
      } else {
        var parts := [[s[0]] + rest[0]] + rest[1..];
        assert parts[1..] == rest[1..];
        assert JoinDays(rest) == rest[0] + "," + JoinDays(rest[1..]);
        assert s == [s[0]] + s[1..];
      }
    }
  }

  lemma TagHasNoComma(t: string)
    requires t in DayTags
    ensures ',' !in t
  {
    assert |t| == 3 && t[0] != ',' && t[1] != ',' && t[2] != ',';
  }

  /**
   When the checked days are weekday tags, the stored column is a
   well-formed day list and splits back into exactly the checked days.
   */
  lemma DaysFromTags(days: seq<string>)
    requires |days| >= 1
    requires forall i :: 0 <= i < |days| ==> days[i] in DayTags
    ensures IsDayList(JoinDays(days))
    ensures Split(JoinDays(days)) == days
  {
    forall i | 0 <= i < |days| ensures ',' !in days[i] {
      TagHasNoComma(days[i]);
    }
    SplitJoin(days);
  }

  /** A map built entry by entry over the route rows is the grouping itself. */
  lemma GroupedRowsMatch(routes: map<int, Route>, schedules: map<int, Schedule>, m: nat, n: nat,
                         view: map<int, RouteEntry>)
    requires IdsBelow(routes, m)
    requires view.Keys == set k | 0 <= k < |Listing(routes, m)| :: Listing(routes, m)[k]
    requires forall rid :: rid in view ==>
      view[rid] == RouteEntry(routes[rid], OnRoute(Active(Listing(schedules, n), schedules), schedules, rid))
    ensures view == GroupSchedules(routes, schedules, n)
  {
    var rows := Listing(routes, m);
    forall rid | rid in routes ensures rid in view {
      assert rid in rows;
      var k :| 0 <= k < |rows| && rows[k] == rid;
    }
    assert view.Keys == routes.Keys;
  }

  // ---------------------------------------------------------------------
  // The store and its handlers.

  /** Every stored schedule is active. */
  predicate AllActive(schedules: map<int, Schedule>)
  {
    forall s :: s in schedules ==> schedules[s].isActive == 1
  }

  /**
   When `n` is past every schedule id, the timetable shows every active
   schedule of each route, and so every schedule once all are active.
   */
  lemma GroupSchedulesShowsAll(routes: map<int, Route>, schedules: map<int, Schedule>, n: nat)
    requires IdsBelow(schedules, n)
    ensures var view := GroupSchedules(routes, schedules, n);
      forall rid, s :: rid in view ==>
        (s in view[rid].schedules <==> s in schedules && schedules[s].routeId == rid && schedules[s].isActive == 1)
    ensures var view := GroupSchedules(routes, schedules, n);
      AllActive(schedules) ==> forall rid, s :: rid in view ==>
        (s in view[rid].schedules <==> s in schedules && schedules[s].routeId == rid)
  {
  }

  predicate UsernameOrEmailTaken(admins: map<int, Admin>, username: string, email: string)
  {
    exists a :: a in admins && (admins[a].username == username || admins[a].email == email)
  }

  /** Some route already has `routeNumber`. */
  predicate NumberInUse(routes: map<int, Route>, routeNumber: string)
  {
    exists r :: r in routes && routes[r].routeNumber == routeNumber
  }

  /** Some route other than `rid` already has `routeNumber`. */
  predicate NumberUsedElsewhere(routes: map<int, Route>, routeNumber: string, rid: int)
  {
    exists r :: r in routes && r != rid && routes[r].routeNumber == routeNumber
  }

  /** A schedule `sid` exists and belongs to route `rid`. */
  predicate ScheduleOfRoute(schedules: map<int, Schedule>, sid: int, rid: int)
  {
    sid in schedules && schedules[sid].routeId == rid
  }

  class Store {
    /** `get_password_hash`, whose algorithm lies outside this model. */
    const hash: string -> string

    var admins: map<int, Admin>
    var routes: map<int, Route>
    var schedules: map<int, Schedule>

    /** The autoincrement counters: the id the next insert into each table gets. */
    var nextAdminId: nat
    var nextRouteId: nat
    var nextScheduleId: nat

    ghost predicate Valid()
      reads this
    {
      && Consistent(admins, routes, schedules)
      && IdsBelow(admins, nextAdminId)
      && IdsBelow(routes, nextRouteId)
      && IdsBelow(schedules, nextScheduleId)
    }

    /** An empty database. */
    constructor (hash: string -> string)
      ensures Valid()
      ensures this.hash == hash
      ensures admins == map[] && routes == map[] && schedules == map[]
      ensures nextAdminId == 1 && nextRouteId == 1 && nextScheduleId == 1
      ensures AllActive(schedules)
    {
      this.hash := hash;
      admins, routes, schedules := map[], map[], map[];
      nextAdminId, nextRouteId, nextScheduleId := 1, 1, 1;
    }

    /** `admin_register`. */
    method RegisterAdmin(username: string, email: string, password: string, agreePrivacy: string)
      returns (o: Outcome)
      requires Valid()
      modifies this
      ensures Valid()
      ensures agreePrivacy == "" ==> o == PrivacyNotAgreed
      ensures agreePrivacy != "" && UsernameOrEmailTaken(old(admins), username, email) ==> o == Conflict
      ensures o == Ok <==> agreePrivacy != "" && !UsernameOrEmailTaken(old(admins), username, email)
      ensures o == Ok ==>
        && old(nextAdminId) !in old(admins)
        && admins == old(admins)[old(nextAdminId) := Admin(username, email, hash(password))]
      ensures o != Ok ==> admins == old(admins)
      ensures routes == old(routes) && schedules == old(schedules)
      ensures unchanged(this`nextRouteId, this`nextScheduleId)
      ensures nextAdminId == if o == Ok then old(nextAdminId) + 1 else old(nextAdminId)
    {
      if agreePrivacy == "" {
        return PrivacyNotAgreed;
      }
      if UsernameOrEmailTaken(admins, username, email) {
        return Conflict;
      }
      var hashedPassword := hash(password);
      admins := admins[nextAdminId := Admin(username, email, hashedPassword)];
      nextAdminId := nextAdminId + 1;
      o := Ok;
    }

    /** `add_route`. */
    method AddRoute(routeNumber: string, routeName: string, description: string)
      returns (o: Outcome)
      requires Valid()
      modifies this
      ensures Valid()
      ensures o == Conflict <==> NumberInUse(old(routes), routeNumber)
      ensures o == Ok <==> !NumberInUse(old(routes), routeNumber)
      ensures o == Ok ==>
        && old(nextRouteId) !in old(routes)
        && routes == old(routes)[old(nextRouteId) := Route(routeNumber, routeName, description)]
      ensures o != Ok ==> routes == old(routes)
      ensures admins == old(admins) && schedules == old(schedules)
      ensures unchanged(this`nextAdminId, this`nextScheduleId)
      ensures nextRouteId == if o == Ok then old(nextRouteId) + 1 else old(nextRouteId)
    {
      if NumberInUse(routes, routeNumber) {
        return Conflict;
      }
      routes := routes[nextRouteId := Route(routeNumber, routeName, description)];
      nextRouteId := nextRouteId + 1;
      o := Ok;
    }

    /** `edit_route`. */
    method EditRoute(routeId: int, routeNumber: string, routeName: string, description: string)
      returns (o: Outcome)
      requires Valid()
      modifies this
      ensures Valid()
      ensures o == NotFound(Routes) <==> routeId !in old(routes)
      ensures o == Conflict <==> routeId in old(routes) && NumberUsedElsewhere(old(routes), routeNumber, routeId)
      ensures o == Ok <==> routeId in old(routes) && !NumberUsedElsewhere(old(routes), routeNumber, routeId)
      ensures routeId in old(routes) && routeNumber == old(routes)[routeId].routeNumber ==> o == Ok
      ensures o == Ok ==> routes == old(routes)[routeId := Route(routeNumber, routeName, description)]
      ensures o != Ok ==> routes == old(routes)
      ensures routes.Keys == old(routes.Keys)
      ensures admins == old(admins) && schedules == old(schedules)
      ensures unchanged(this`nextAdminId, this`nextRouteId, this`nextScheduleId)
    {
      if routeId !in routes {
        return NotFound(Routes);
      }
      if NumberUsedElsewhere(routes, routeNumber, routeId) {
        return Conflict;
      }
      routes := routes[routeId := Route(routeNumber, routeName, description)];
      o := Ok;
    }

    /** `delete_route`: the route's schedules go first, then the route. */
    method DeleteRoute(routeId: int) returns (o: Outcome)
      requires Valid()
      modifies this
      ensures Valid()
      ensures o == NotFound(Routes) <==> routeId !in old(routes)
      ensures o == Ok <==> routeId in old(routes)
      ensures o == Ok ==> routes == old(routes) - {routeId}
      ensures o == Ok ==> forall s :: s in schedules <==> s in old(schedules) && old(schedules)[s].routeId != routeId
      ensures o == Ok ==> forall s :: s in schedules ==> schedules[s] == old(schedules)[s]
      ensures o == Ok ==> SchedulesOf(schedules, routeId) == {}
      ensures o != Ok ==> routes == old(routes) && schedules == old(schedules)
      ensures AllActive(old(schedules)) ==> AllActive(schedules)
      ensures admins == old(admins)
      ensures unchanged(this`nextAdminId, this`nextRouteId, this`nextScheduleId)
    {
      if routeId !in routes {
        return NotFound(Routes);
      }
      schedules := map s | s in schedules && schedules[s].routeId != routeId :: schedules[s];
      routes := routes - {routeId};
      o := Ok;
    }

    /** `add_schedule`: a new active schedule on an existing route. */
    method AddSchedule(routeId: int, departureTime: string, arrivalTime: string,
                       departureStop: string, arrivalStop: string, days: seq<string>)
      returns (o: Outcome)
      requires Valid()
      modifies this
      ensures Valid()
      ensures o == NotFound(Routes) <==> routeId !in old(routes)
      ensures o == Ok <==> routeId in old(routes)
      ensures o == Ok ==>
        && old(nextScheduleId) !in old(schedules)
        && schedules == old(schedules)[old(nextScheduleId) :=
             Schedule(routeId, departureTime, arrivalTime, departureStop, arrivalStop, JoinDays(days), 1)]
      ensures o != Ok ==> schedules == old(schedules)
      ensures AllActive(old(schedules)) ==> AllActive(schedules)
      ensures admins == old(admins) && routes == old(routes)
      ensures unchanged(this`nextAdminId, this`nextRouteId)
      ensures nextScheduleId == if o == Ok then old(nextScheduleId) + 1 else old(nextScheduleId)
    {
      if routeId !in routes {
        return NotFound(Routes);
      }
      var daysStr := JoinDays(days);
      schedules := schedules[nextScheduleId :=
        Schedule(routeId, departureTime, arrivalTime, departureStop, arrivalStop, daysStr, 1)];
      nextScheduleId := nextScheduleId + 1;
      o := Ok;
    }

    /** `edit_schedule`: rewrites the five form fields, never `is_active`. */
    method EditSchedule(routeId: int, scheduleId: int, departureTime: string, arrivalTime: string,
                        departureStop: string, arrivalStop: string, days: seq<string>)
      returns (o: Outcome)
      requires Valid()
      modifies this
      ensures Valid()
      ensures o == NotFound(Routes) <==> routeId !in old(routes)
      ensures o == NotFound(Schedules) <==>
        routeId in old(routes) && !ScheduleOfRoute(old(schedules), scheduleId, routeId)
      ensures o == Ok <==> routeId in old(routes) && ScheduleOfRoute(old(schedules), scheduleId, routeId)
      ensures o == Ok ==>
        schedules == old(schedules)[scheduleId := old(schedules)[scheduleId].(
          departureTime := departureTime, arrivalTime := arrivalTime,
          departureStop := departureStop, arrivalStop := arrivalStop,
          daysOfWeek := JoinDays(days))]
      ensures o != Ok ==> schedules == old(schedules)
      ensures schedules.Keys == old(schedules.Keys)
      ensures AllActive(old(schedules)) ==> AllActive(schedules)
      ensures admins == old(admins) && routes == old(routes)
      ensures unchanged(this`nextAdminId, this`nextRouteId, this`nextScheduleId)
    {
      if routeId !in routes {
        return NotFound(Routes);
      }
      if !ScheduleOfRoute(schedules, scheduleId, routeId) {
        return NotFound(Schedules);
      }
      var daysStr := JoinDays(days);
      var schedule := schedules[scheduleId];
      schedule := schedule.(departureTime := departureTime, arrivalTime := arrivalTime);
      schedule := schedule.(departureStop := departureStop, arrivalStop := arrivalStop);
      schedule := schedule.(daysOfWeek := daysStr);
      schedules := schedules[scheduleId := schedule];
      o := Ok;
    }

    /** `delete_schedule`: removes that one schedule of that route. */
    method DeleteSchedule(routeId: int, scheduleId: int) returns (o: Outcome)
      requires Valid()
      modifies this
      ensures Valid()
      ensures o == NotFound(Routes) <==> routeId !in old(routes)
      ensures o == NotFound(Schedules) <==>
        routeId in old(routes) && !ScheduleOfRoute(old(schedules), scheduleId, routeId)
      ensures o == Ok <==> routeId in old(routes) && ScheduleOfRoute(old(schedules), scheduleId, routeId)
      ensures o == Ok ==> schedules == old(schedules) - {scheduleId}
      ensures o != Ok ==> schedules == old(schedules)
      ensures AllActive(old(schedules)) ==> AllActive(schedules)
      ensures admins == old(admins) && routes == old(routes)
      ensures unchanged(this`nextAdminId, this`nextRouteId, this`nextScheduleId)
    {
      if routeId !in routes {
        return NotFound(Routes);
      }
      if !ScheduleOfRoute(schedules, scheduleId, routeId) {
        return NotFound(Schedules);
      }
      schedules := schedules - {scheduleId};
      o := Ok;
    }

    /**
     `view_schedule`: every route gets an entry, possibly with no schedules;
     an entry lists exactly the active schedules of that route, in table order.
     */
    method ViewSchedule() returns (view: map<int, RouteEntry>)
      requires IdsBelow(routes, nextRouteId) && IdsBelow(schedules, nextScheduleId)
      ensures view == GroupSchedules(routes, schedules, nextScheduleId)
      ensures view.Keys == routes.Keys
      ensures forall rid :: rid in view ==> view[rid].route == routes[rid] && Increasing(view[rid].schedules)
      ensures forall rid, s :: rid in view ==>
        (s in view[rid].schedules <==> s in schedules && schedules[s].routeId == rid && schedules[s].isActive == 1)
      ensures AllActive(schedules) ==> forall rid, s :: rid in view ==>
        (s in view[rid].schedules <==> s in schedules && schedules[s].routeId == rid)
    {
      var routeRows := Listing(routes, nextRouteId);
      var active := Active(Listing(schedules, nextScheduleId), schedules);
      view := map[];
      for i := 0 to |routeRows|
        invariant view.Keys == set k | 0 <= k < i :: routeRows[k]
        invariant forall rid :: rid in view ==> view[rid] == RouteEntry(routes[rid], OnRoute(active, schedules, rid))
      {
        var rid := routeRows[i];
        view := view[rid := RouteEntry(routes[rid], OnRoute(active, schedules, rid))];
      }
      GroupedRowsMatch(routes, schedules, nextRouteId, nextScheduleId, view);
      GroupSchedulesShowsAll(routes, schedules, nextScheduleId);
    }
  }
}
