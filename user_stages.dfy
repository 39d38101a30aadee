/**
 * The user-list stages composed in the associativity example: keeping the
 * active users, two variants of "simplify" (one rebuilding each `User`, one
 * turning it into a `UserResponse` that has only the name), sorting through
 * `usort`, and a composition of constant closures.
 */
module UserStages {
  import opened Composition

  /** A readonly record: the user's name and whether the account is active. */
  datatype User = User(name: string, isActive: bool)

  /** A readonly record that keeps only the user's name. */
  datatype UserResponse = UserResponse(name: string)

  /** `$filterActive`: `array_filter` on `isActive`. */
  function FilterActive(users: seq<User>): (active: seq<User>)
    ensures |active| <= |users|
    ensures forall u :: u in active <==> u in users && u.isActive
  {
    if |users| == 0 then []
    else (if users[0].isActive then [users[0]] else []) + FilterActive(users[1..])
  }

  /**
   * Filtering distributes over concatenation, so the kept users stay in their
   * original order.
   */
  lemma {:induction false} FilterActiveDistributes(front: seq<User>, back: seq<User>)
    ensures FilterActive(front + back) == FilterActive(front) + FilterActive(back)
    decreases |front|
  {
    if |front| == 0 {
      assert front + back == back;
    } else {
      var kept := if front[0].isActive then [front[0]] else [];
      assert front + back == [front[0]] + (front[1..] + back);
      assert front == [front[0]] + front[1..];
      FilterActiveCons(front[0], front[1..] + back);
      FilterActiveCons(front[0], front[1..]);
      FilterActiveDistributes(front[1..], back);
      ConcatAssociative(kept, FilterActive(front[1..]), FilterActive(back));
    }
  }

  lemma ConcatAssociative(a: seq<User>, b: seq<User>, c: seq<User>)
    ensures a + (b + c) == (a + b) + c
  {
  }

  /** One step of the filter: the first user is kept exactly when active. */
  lemma FilterActiveCons(u: User, rest: seq<User>)
    ensures FilterActive([u] + rest) == (if u.isActive then [u] else []) + FilterActive(rest)
  {
    assert ([u] + rest)[1..] == rest;
  }

  /** The list the script builds. */
  function ExampleUsers(): seq<User>
  {
    [User("test", false), User("test2", true), User("test3", false)]
  }

  /** Of the example list only the user named "test2" is active. */
  lemma ExampleFilter()
    ensures FilterActive(ExampleUsers()) == [User("test2", true)]
  {
  }

  /** `$simplifyUser`, first variant: each `User` becomes a `UserResponse` with the same name. */
  function SimplifyToResponse(users: seq<User>): (responses: seq<UserResponse>)
    ensures |responses| == |users|
    ensures forall i :: 0 <= i < |users| ==> responses[i].name == users[i].name
  {
    if |users| == 0 then []
    else [UserResponse(users[0].name)] + SimplifyToResponse(users[1..])
  }

  /** `$simplifyUser`, second variant: each `User` is rebuilt from its own name and flag. */
  function SimplifyUser(users: seq<User>): (rebuilt: seq<User>)
    ensures rebuilt == users
  {
    if |users| == 0 then []
    else [User(users[0].name, users[0].isActive)] + SimplifyUser(users[1..])
  }

  /**
   * With the rebuilding variant the two stages can be composed in either
   * order: filtering then simplifying equals simplifying then filtering.
   */
  lemma FilterSimplifyCommute(users: seq<User>)
    ensures Compose(FilterActive, SimplifyUser)(users) == Compose(SimplifyUser, FilterActive)(users)
    ensures Compose(FilterActive, SimplifyUser)(users) == FilterActive(users)
  {
    ComposeApplies(FilterActive, SimplifyUser, users);
    ComposeApplies(SimplifyUser, FilterActive, users);
  }

  /**
   * The response variant keeps only names: two lists with the same names in the
   * same order give the same responses, whatever their `isActive` flags.
   */
  lemma ResponsesKeepOnlyNames(a: seq<User>, b: seq<User>)
    requires |a| == |b|
    requires forall i :: 0 <= i < |a| ==> a[i].name == b[i].name
    ensures SimplifyToResponse(a) == SimplifyToResponse(b)
  {
  }

  /**
   * So with the response variant the order matters: no stage run after it can
   * do what filtering does, since the `isActive` flags are already gone.
   */
  lemma NoStageAfterResponsesFilters(stage: seq<UserResponse> -> seq<User>)
    ensures exists users :: Compose(stage, SimplifyToResponse)(users) != FilterActive(users)
  {
    var active, inactive := [User("", true)], [User("", false)];
    ResponsesKeepOnlyNames(active, inactive);
    ComposeApplies(stage, SimplifyToResponse, active);
    ComposeApplies(stage, SimplifyToResponse, inactive);
    assert FilterActive(active) != FilterActive(inactive) by {
      assert active[0] in FilterActive(active);
    }
  }

  /**
   * `$sortUsers`: `usort` sorts a local copy of the list in place and returns
   * `true`; the closure returns that boolean, so the sorted copy is lost.
   */
  function SortUsers(users: seq<User>): (ok: bool)
    ensures ok
  {
    true
  }

  /**
   * `$processData` applied to `data`: constant closures composed around one
   * another. The outermost closure ignores its argument, so every input yields
   * 'prepareReport'.
   */
  function ProcessData<T>(data: T): (report: string)
    ensures report == "prepareReport"
  {
    Compose(
      Compose(
        (d: string) => "prepareReport",
        Compose((d: string) => "sortData", (d: string) => "sortDataByDate")),
      (d: T) => "filterActiveUsers")(data)
  }
}
