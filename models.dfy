/**
 The three tables of the route/schedule catalogue (models.py): admins,
 routes and schedules, stated as predicates over id-keyed tables: the
 unique and foreign-key constraints the columns declare, and the documented
 convention for the `is_active` flag.
 */
module Models {

  /** One row of `admins`; the primary key is the key of the table map. */
  datatype Admin = Admin(username: string, email: string, hashedPassword: string)

  /** One row of `routes`. */
  datatype Route = Route(routeNumber: string, routeName: string, description: string)

  /** One row of `schedules`; `routeId` references `routes.id`. */
  datatype Schedule = Schedule(
    routeId: int,
    departureTime: string,
    arrivalTime: string,
    departureStop: string,
    arrivalStop: string,
    daysOfWeek: string,
    isActive: int)

  /** The weekday tags `days_of_week` is meant to be a comma-separated list of. */
  const DayTags: set<string> := {"mon", "tue", "wed", "thu", "fri", "sat", "sun"}

  /** `username` is a unique column. */
  predicate UniqueUsernames(admins: map<int, Admin>)
  {
    forall a, b :: a in admins && b in admins && admins[a].username == admins[b].username ==> a == b
  }

  /** `email` is a unique column. */
  predicate UniqueEmails(admins: map<int, Admin>)
  {
    forall a, b :: a in admins && b in admins && admins[a].email == admins[b].email ==> a == b
  }

  /** `route_number` is a unique column. */
  predicate UniqueRouteNumbers(routes: map<int, Route>)
  {
    forall a, b :: a in routes && b in routes && routes[a].routeNumber == routes[b].routeNumber ==> a == b
  }

  /** `route_id` is a foreign key into `routes.id`. */
  predicate NoOrphans(routes: map<int, Route>, schedules: map<int, Schedule>)
  {
    forall s :: s in schedules ==> schedules[s].routeId in routes
  }

  /**
   `is_active` holds 1 (active) or 0 (inactive). The column is a plain
   integer; this is the convention its comment documents, not a constraint
   the database enforces.
   */
  predicate ActiveFlagsValid(schedules: map<int, Schedule>)
  {
    forall s :: s in schedules ==> schedules[s].isActive == 0 || schedules[s].isActive == 1
  }

  /** The declared constraints of the three tables and the `is_active` convention, at once. */
  predicate Consistent(admins: map<int, Admin>, routes: map<int, Route>, schedules: map<int, Schedule>)
  {
    && UniqueUsernames(admins)
    && UniqueEmails(admins)
    && UniqueRouteNumbers(routes)
    && NoOrphans(routes, schedules)
    && ActiveFlagsValid(schedules)
  }

  /** `Route.schedules`: the ids of the schedules whose `route_id` is `rid`. */
  function SchedulesOf(schedules: map<int, Schedule>, rid: int): (ids: set<int>)
    ensures ids <= schedules.Keys
  {
    set s | s in schedules && schedules[s].routeId == rid
  }

  /** `Schedule.route`: the id of the route a schedule's foreign key points at. */
  function RouteOf(routes: map<int, Route>, schedules: map<int, Schedule>, sid: int): (rid: int)
    requires NoOrphans(routes, schedules) && sid in schedules
    ensures rid in routes
  {
    schedules[sid].routeId
  }

  /**
   The two relationship attributes are views of one relation: under the
   foreign key, a schedule belongs to the `schedules` of exactly the route
   its `route` attribute names, and to no other route's.
   */
  lemma BackPopulates(routes: map<int, Route>, schedules: map<int, Schedule>, sid: int, rid: int)
    requires NoOrphans(routes, schedules)
    requires sid in schedules && rid in routes
    ensures sid in SchedulesOf(schedules, rid) <==> RouteOf(routes, schedules, sid) == rid
  {
  }

  /**
   Python's `s.split(",")`: the maximal comma-free pieces of `s`, in order;
   the empty string splits into one empty piece.
   */
  function Split(s: string): (parts: seq<string>)
    ensures |parts| >= 1
    ensures forall i :: 0 <= i < |parts| ==> ',' !in parts[i]
  {
    if s == [] then [""]
    else
      var rest := Split(s[1..]);
      if s[0] == ',' then [""] + rest
      else [[s[0]] + rest[0]] + rest[1..]
  }

  /** `days_of_week` as the column comment describes it: comma-separated weekday tags. */
  predicate IsDayList(s: string)
  {
    var parts := Split(s);
    forall i :: 0 <= i < |parts| ==> parts[i] in DayTags
  }
}
