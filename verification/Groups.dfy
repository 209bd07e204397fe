/** Group membership: the allgroup and groupuser tables, and the two-statement creation of a group
    interleaved with joins, failures and crashes. */
module Groups {
  import opened Wrappers

  datatype Role = Creator | Normal

  /** Primary key of groupuser. */
  datatype Membership = Membership(group: int, user: int)

  type Members = map<Membership, Role>

  /** creating holds the createGroup handlers that have inserted the group but not yet its creator. */
  datatype Tables = Tables(nextGroup: nat, members: Members, creating: set<Membership>)

  datatype Step =
    | Create(user: int, outcome: Outcome)
    | AddCreator(who: Membership, outcome: Outcome)
    | Abandon(who: Membership)
    | Join(who: Membership, outcome: Outcome)

  /** "insert ignore": the first row of a primary key stays. */
  function InsertIgnore(m: Members, who: Membership, role: Role): Members {
    if who in m then m else m[who := role]
  }

  function Add(m: Members, who: Membership, role: Role, outcome: Outcome): Members {
    if outcome.Failed? then m else InsertIgnore(m, who, role)
  }

  predicate Enabled(t: Tables, s: Step) {
    match s
    case AddCreator(who, _) => who in t.creating
    case Abandon(who) => who in t.creating
    case _ => true
  }

  function Apply(t: Tables, s: Step): Tables {
    match s
    case Create(user, outcome) =>
      if outcome.Failed? then t
      else
        var who := Membership(t.nextGroup, user);
        Tables(t.nextGroup + 1, t.members, if outcome.Done? then t.creating + {who} else t.creating)
    case AddCreator(who, outcome) =>
      Tables(t.nextGroup, Add(t.members, who, Creator, outcome), t.creating - {who})
    case Abandon(who) => t.(creating := t.creating - {who})
    case Join(who, outcome) => t.(members := Add(t.members, who, Normal, outcome))
  }

  predicate ValidRun(t: Tables, steps: seq<Step>)
    decreases |steps|
  {
    steps == [] || (Enabled(t, steps[0]) && ValidRun(Apply(t, steps[0]), steps[1..]))
  }

  function Run(t: Tables, steps: seq<Step>): Tables
    decreases |steps|
  {
    if steps == [] then t else Run(Apply(t, steps[0]), steps[1..])
  }

  ghost predicate AtMostOneCreator(m: Members) {
    forall a, b | a in m && b in m && m[a].Creator? && m[b].Creator? && a.group == b.group :: a == b
  }

  /** a is the creator of its group or about to become it. */
  predicate Claims(t: Tables, a: Membership) {
    a in t.creating || (a in t.members && t.members[a].Creator?)
  }

  /** A group has at most one claim, and claimed ids are below the next one. */
  ghost predicate Consistent(t: Tables) {
    && (forall a | Claims(t, a) :: a.group < t.nextGroup)
    && (forall a, b | Claims(t, a) && Claims(t, b) && a.group == b.group :: a == b)
  }

  lemma ConsistentMeansOneCreator(t: Tables)
    requires Consistent(t)
    ensures AtMostOneCreator(t.members)
  {
    assert forall a | a in t.members && t.members[a].Creator? :: Claims(t, a);
  }

  ghost predicate RolesKept(m: Members, m': Members) {
    forall a | a in m :: a in m' && m'[a] == m[a]
  }

  /** Only a creation adds a claim, and it claims a fresh id. */
  lemma ClaimsAfter(t: Tables, s: Step, a: Membership)
    requires Enabled(t, s) && Claims(Apply(t, s), a)
    ensures Claims(t, a) || (s.Create? && a.group == t.nextGroup && a.user == s.user)
  {
  }

  lemma StepKeepsConsistent(t: Tables, s: Step)
    requires Consistent(t) && Enabled(t, s)
    ensures Consistent(Apply(t, s)) && RolesKept(t.members, Apply(t, s).members)
  {
    var t' := Apply(t, s);
    forall a | Claims(t', a) ensures a.group < t'.nextGroup {
      ClaimsAfter(t, s, a);
    }
    forall a, b | Claims(t', a) && Claims(t', b) && a.group == b.group ensures a == b {
      ClaimsAfter(t, s, a);
      ClaimsAfter(t, s, b);
    }
  }

  /** Over every run of creations and joins, with any failures: no group has two creators, no
      membership is lost and no role changes. */
  lemma {:induction false} GroupsStayConsistent(t: Tables, steps: seq<Step>)
    requires Consistent(t) && ValidRun(t, steps)
    ensures AtMostOneCreator(Run(t, steps).members)
    ensures RolesKept(t.members, Run(t, steps).members)
    ensures Consistent(Run(t, steps))
    decreases |steps|
  {
    ConsistentMeansOneCreator(t);
    if steps != [] {
      StepKeepsConsistent(t, steps[0]);
      GroupsStayConsistent(Apply(t, steps[0]), steps[1..]);
    }
  }

  /** Tables between two requests: no creation is half done and ids from next on are unused. */
  ghost predicate Fresh(m: Members, next: nat) {
    AtMostOneCreator(m) && forall a | a in m :: a.group < next
  }

  lemma FreshTablesConsistent(m: Members, next: nat)
    requires Fresh(m, next)
    ensures Consistent(Tables(next, m, {}))
  {
  }

  /** The same over every run from tables at rest. */
  lemma AtMostOneCreatorEver(m: Members, next: nat, steps: seq<Step>)
    requires Fresh(m, next) && ValidRun(Tables(next, m, {}), steps)
    ensures AtMostOneCreator(Run(Tables(next, m, {}), steps).members)
    ensures RolesKept(m, Run(Tables(next, m, {}), steps).members)
  {
    FreshTablesConsistent(m, next);
    GroupsStayConsistent(Tables(next, m, {}), steps);
  }

  // ---- when a group gets its creator ----

  predicate IsCreator(m: Members, who: Membership) {
    who in m && m[who].Creator?
  }

  /** The step stores who as creator, unless something was settled about who before. */
  predicate Crowns(s: Step, who: Membership) {
    s.AddCreator? && s.who == who && !s.outcome.Failed?
  }

  /** After this step a later insert of the creator row for who has no effect, or never happens. */
  predicate Settles(s: Step, who: Membership) {
    match s
    case AddCreator(w, _) => w == who
    case Abandon(w) => w == who
    case Join(w, outcome) => w == who && !outcome.Failed?
    case Create(_, _) => false
  }

  /** The creator insert of who is applied, and nothing settled it before: no applied join of the
      founder, early or late, no failed creator insert and no crash between the two inserts. */
  predicate CrownedFirst(steps: seq<Step>, who: Membership) {
    exists i :: 0 <= i < |steps| && Crowns(steps[i], who) && forall j | 0 <= j < i :: !Settles(steps[j], who)
  }

  lemma CrownedFirstSplits(steps: seq<Step>, who: Membership)
    requires steps != []
    ensures CrownedFirst(steps, who) <==>
            Crowns(steps[0], who) || (!Settles(steps[0], who) && CrownedFirst(steps[1..], who))
  {
    if CrownedFirst(steps, who) && !Crowns(steps[0], who) {
      var i :| 0 <= i < |steps| && Crowns(steps[i], who) && forall j | 0 <= j < i :: !Settles(steps[j], who);
      assert Crowns(steps[1..][i - 1], who);
      assert forall j | 0 <= j < i - 1 :: steps[1..][j] == steps[j + 1];
    }
    if !Settles(steps[0], who) && CrownedFirst(steps[1..], who) {
      var rest := steps[1..];
      var i :| 0 <= i < |rest| && Crowns(rest[i], who) && forall j | 0 <= j < i :: !Settles(rest[j], who);
      assert Crowns(steps[i + 1], who);
      assert forall j | 0 < j < i + 1 :: steps[j] == rest[j - 1];
    }
  }

  /** who's group exists and its creation is over, or who is stored: nothing crowns who any more. */
  predicate Decided(t: Tables, who: Membership) {
    who in t.members || (who !in t.creating && who.group < t.nextGroup)
  }

  lemma {:induction false} DecidedStays(t: Tables, steps: seq<Step>, who: Membership)
    requires ValidRun(t, steps) && Decided(t, who)
    ensures IsCreator(Run(t, steps).members, who) <==> IsCreator(t.members, who)
    decreases |steps|
  {
    if steps != [] {
      DecidedStays(Apply(t, steps[0]), steps[1..], who);
    }
  }

  lemma {:induction false} OverIsNotCrowned(t: Tables, steps: seq<Step>, who: Membership)
    requires ValidRun(t, steps) && who !in t.creating && who.group < t.nextGroup
    ensures !CrownedFirst(steps, who)
    decreases |steps|
  {
    if steps != [] {
      CrownedFirstSplits(steps, who);
      OverIsNotCrowned(Apply(t, steps[0]), steps[1..], who);
    }
  }

  /** Over every run: a user that is not yet stored ends up as the creator of a group that is being
      created, or not created yet, if and only if it is crowned first. */
  lemma {:induction false} CreatorStoredExactlyFrom(t: Tables, steps: seq<Step>, who: Membership)
    requires Consistent(t) && ValidRun(t, steps)
    requires who !in t.members && (who in t.creating || who.group >= t.nextGroup)
    ensures IsCreator(Run(t, steps).members, who) <==> CrownedFirst(steps, who)
    decreases |steps|
  {
    if steps != [] {
      var t' := Apply(t, steps[0]);
      CrownedFirstSplits(steps, who);
      StepKeepsConsistent(t, steps[0]);
      if Settles(steps[0], who) {
        assert who in t.creating ==> Claims(t, who);
        DecidedStays(t', steps[1..], who);
      } else if who in t'.creating || who.group >= t'.nextGroup {
        CreatorStoredExactlyFrom(t', steps[1..], who);
      } else {
        DecidedStays(t', steps[1..], who);
        OverIsNotCrowned(t', steps[1..], who);
      }
    }
  }

  /** Over every run from tables at rest, for any user and any group that does not exist yet: the user
      is stored as its creator at the end if and only if it is crowned first. */
  lemma CreatorStoredExactly(m: Members, next: nat, steps: seq<Step>, who: Membership)
    requires Fresh(m, next) && ValidRun(Tables(next, m, {}), steps) && who.group >= next
    ensures IsCreator(Run(Tables(next, m, {}), steps).members, who) <==> CrownedFirst(steps, who)
  {
    FreshTablesConsistent(m, next);
    CreatorStoredExactlyFrom(Tables(next, m, {}), steps, who);
  }

  /** So the group has a creator if and only if somebody is crowned first. */
  lemma GroupHasCreatorExactly(m: Members, next: nat, steps: seq<Step>, group: int)
    requires Fresh(m, next) && ValidRun(Tables(next, m, {}), steps) && group >= next
    ensures var m' := Run(Tables(next, m, {}), steps).members;
            (exists user :: IsCreator(m', Membership(group, user))) <==>
            (exists user :: CrownedFirst(steps, Membership(group, user)))
  {
    forall user: int
      ensures IsCreator(Run(Tables(next, m, {}), steps).members, Membership(group, user)) <==>
              CrownedFirst(steps, Membership(group, user))
    {
      CreatorStoredExactly(m, next, steps, Membership(group, user));
    }
  }

  /** A creator insert is only made for a group whose creation was reported as done in the same run. */
  lemma {:induction false} CreatorNeedsReport(t: Tables, steps: seq<Step>, who: Membership, outcome: Outcome)
    requires ValidRun(t, steps) && who !in t.creating && AddCreator(who, outcome) in steps
    ensures Create(who.user, Done) in steps
    decreases |steps|
  {
    if steps[0] != Create(who.user, Done) {
      CreatorNeedsReport(Apply(t, steps[0]), steps[1..], who, outcome);
    }
  }

  /** A group may end up without any creator: its founder can join the id before it exists, and the
      later insert of the creator row is then ignored. */
  lemma CreatorCanBeMissing(user: int)
    ensures var t := Tables(1, map[], {});
            var founder := Membership(1, user);
            var steps := [Join(founder, Done), Create(user, Done), AddCreator(founder, Done)];
            ValidRun(t, steps) && Run(t, steps).members == map[founder := Normal]
  {
    var founder := Membership(1, user);
    var t0 := Tables(1, map[], {});
    var t1 := Apply(t0, Join(founder, Done));
    var t2 := Apply(t1, Create(user, Done));
    var t3 := Apply(t2, AddCreator(founder, Done));
    var steps := [Join(founder, Done), Create(user, Done), AddCreator(founder, Done)];
    assert steps[1..] == [Create(user, Done), AddCreator(founder, Done)];
    assert steps[1..][1..] == [AddCreator(founder, Done)];
    assert ValidRun(t3, []);
    assert ValidRun(t2, [AddCreator(founder, Done)]);
    assert ValidRun(t1, steps[1..]);
    assert Run(t2, [AddCreator(founder, Done)]) == t3;
    assert Run(t1, steps[1..]) == t3;
  }

  /** The users a group message goes to: every member but the sender, and nobody if the sender is
      not a member. */
  function Others(m: Members, sender: int, group: int): set<int> {
    if Membership(group, sender) in m then
      set a | a in m && a.group == group && a.user != sender :: a.user
    else {}
  }

  /** A user is among them if and only if it is another member, in any role, and so is the sender. */
  lemma OthersExactly(m: Members, sender: int, group: int, user: int)
    ensures user in Others(m, sender, group) <==>
            Membership(group, sender) in m && Membership(group, user) in m && user != sender
  {
    if Membership(group, user) in m && user != sender {
      assert Membership(group, user).user == user;
    }
  }
}
