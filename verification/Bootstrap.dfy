/** Startup of several gateway instances over one database: create the default user and
    organisation, fall back to a lookup on conflict, then add the membership. */
module Bootstrap {

  /** A row of a table with a unique key. */
  datatype Row = Row(key: string, id: nat)

  /** `Missing` is "conflict but not found"; `Failed` any other database error. */
  datatype Answer = Got(id: nat) | Missing | Failed

  /** Where an instance stands in its startup sequence. */
  datatype Pc =
    | CreateUser
    | LookupUser
    | CreateOrg(user: Answer)
    | LookupOrg(user: Answer)
    | AddMember(user: Answer, org: Answer)
    | Started(user: Answer, org: Answer)

  datatype State = State(users: seq<Row>, orgs: seq<Row>, members: seq<(nat, nat)>, instances: seq<Pc>)

  /** The next step of instance `who`; `id` is the identifier the database would assign,
      `fault` a database error other than a conflict. */
  datatype Action = Action(who: nat, id: nat, fault: bool)

  const ANONYMOUS := "anonymous"
  const LOCAL := "local"

  // ---------- tables with a unique key ----------

  function Find(rows: seq<Row>, key: string): (r: Answer)
    ensures r.Missing? <==> forall i :: 0 <= i < |rows| ==> rows[i].key != key
  {
    if rows == [] then Missing
    else if rows[0].key == key then Got(rows[0].id)
    else
      var later := Find(rows[1..], key);
      assert later.Missing? ==> forall i :: 0 <= i < |rows| ==> rows[i] == rows[0] || rows[i] == rows[1..][i - 1];
      later
  }

  function Count(rows: seq<Row>, key: string): nat {
    if rows == [] then 0 else (if rows[0].key == key then 1 else 0) + Count(rows[1..], key)
  }

  /** An atomic insert under a unique constraint. */
  function Insert(rows: seq<Row>, key: string, id: nat): seq<Row> {
    if Find(rows, key).Missing? then rows + [Row(key, id)] else rows
  }

  lemma {:induction false} FindAppend(rows: seq<Row>, row: Row, key: string)
    ensures Find(rows + [row], key) ==
            if !Find(rows, key).Missing? then Find(rows, key) else if row.key == key then Got(row.id) else Missing
    ensures Count(rows + [row], key) == Count(rows, key) + (if row.key == key then 1 else 0)
  {
    if rows == [] {
      assert (rows + [row])[1..] == [];
    } else {
      assert (rows + [row])[0] == rows[0] && (rows + [row])[1..] == rows[1..] + [row];
      FindAppend(rows[1..], row, key);
    }
  }

  lemma {:induction false} CountFind(rows: seq<Row>, key: string)
    ensures Count(rows, key) == 0 <==> Find(rows, key).Missing?
  {
    if rows != [] { CountFind(rows[1..], key); }
  }

  lemma InsertKeeps(rows: seq<Row>, key: string, id: nat, k: string)
    ensures !Find(rows, k).Missing? ==> Find(Insert(rows, key, id), k) == Find(rows, k)
    ensures !Find(Insert(rows, key, id), key).Missing?
    ensures Count(rows, k) <= 1 ==> Count(Insert(rows, key, id), k) <= 1
  {
    FindAppend(rows, Row(key, id), k);
    FindAppend(rows, Row(key, id), key);
    CountFind(rows, key);
  }

  // ---------- the protocol ----------

  function NextUser(s: State, a: Action): (seq<Row>, Pc) {
    if a.fault then (s.users, CreateOrg(Failed))
    else if Find(s.users, ANONYMOUS).Missing? then (Insert(s.users, ANONYMOUS, a.id), CreateOrg(Got(a.id)))
    else (s.users, LookupUser)
  }

  function NextOrg(s: State, a: Action, user: Answer): (seq<Row>, Pc) {
    if a.fault then (s.orgs, Joining(user, Failed))
    else if Find(s.orgs, LOCAL).Missing? then (Insert(s.orgs, LOCAL, a.id), Joining(user, Got(a.id)))
    else (s.orgs, LookupOrg(user))
  }

  /** The membership is only tried when both answers are there. */
  function Joining(user: Answer, org: Answer): Pc {
    if user.Got? && org.Got? then AddMember(user, org) else Started(user, org)
  }

  function Step(s: State, a: Action): State {
    if a.who >= |s.instances| then s
    else
      match s.instances[a.who]
      case CreateUser =>
        var (rows, pc) := NextUser(s, a);
        s.(users := rows, instances := s.instances[a.who := pc])
      case LookupUser =>
        s.(instances := s.instances[a.who := CreateOrg(if a.fault then Failed else Find(s.users, ANONYMOUS))])
      case CreateOrg(user) =>
        var (rows, pc) := NextOrg(s, a, user);
        s.(orgs := rows, instances := s.instances[a.who := pc])
      case LookupOrg(user) =>
        s.(instances := s.instances[a.who := Joining(user, if a.fault then Failed else Find(s.orgs, LOCAL))])
      case AddMember(user, org) =>
        var member := (if user.Got? then user.id else 0, if org.Got? then org.id else 0);
        s.(members := if a.fault || member in s.members then s.members else s.members + [member],
           instances := s.instances[a.who := Started(user, org)])
      case Started(_, _) => s
  }

  function Run(s: State, actions: seq<Action>): State
    decreases |actions|
  {
    if actions == [] then s else Run(Step(s, actions[0]), actions[1..])
  }

  /** `n` instances about to start over a database that already keeps its constraints. */
  ghost predicate Initial(s: State) {
    && (forall i :: 0 <= i < |s.instances| ==> s.instances[i] == CreateUser)
    && Count(s.users, ANONYMOUS) <= 1 && Count(s.orgs, LOCAL) <= 1
    && Once(s.members)
  }

  ghost predicate Once(members: seq<(nat, nat)>) {
    forall i, j :: 0 <= i < j < |members| ==> members[i] != members[j]
  }

  // ---------- the invariant ----------

  /** An answer is the one row of the table, or a database error. */
  predicate Faithful(rows: seq<Row>, key: string, answer: Answer) {
    answer.Failed? || (answer.Got? && answer == Find(rows, key))
  }

  predicate Consistent(s: State, pc: Pc) {
    match pc
    case CreateUser => true
    case LookupUser => !Find(s.users, ANONYMOUS).Missing?
    case CreateOrg(user) => Faithful(s.users, ANONYMOUS, user)
    case LookupOrg(user) => Faithful(s.users, ANONYMOUS, user) && !Find(s.orgs, LOCAL).Missing?
    case AddMember(user, org) =>
      Faithful(s.users, ANONYMOUS, user) && Faithful(s.orgs, LOCAL, org) && user.Got? && org.Got?
    case Started(user, org) => Faithful(s.users, ANONYMOUS, user) && Faithful(s.orgs, LOCAL, org)
  }

  ghost predicate Inv(s: State) {
    && (forall i :: 0 <= i < |s.instances| ==> Consistent(s, s.instances[i]))
    && Count(s.users, ANONYMOUS) <= 1 && Count(s.orgs, LOCAL) <= 1
    && Once(s.members)
  }

  /** What other instances know stays true while tables only grow. */
  lemma StillConsistent(s: State, t: State, pc: Pc)
    requires Consistent(s, pc)
    requires !Find(s.users, ANONYMOUS).Missing? ==> Find(t.users, ANONYMOUS) == Find(s.users, ANONYMOUS)
    requires !Find(s.orgs, LOCAL).Missing? ==> Find(t.orgs, LOCAL) == Find(s.orgs, LOCAL)
    ensures Consistent(t, pc)
  {
  }

  lemma FindNeverFails(rows: seq<Row>, key: string)
    ensures !Find(rows, key).Failed?
  {
    if rows != [] { FindNeverFails(rows[1..], key); }
  }

  /** Every step leaves the tables as they were, or inserts the one missing row. */
  lemma TablesKept(s: State, a: Action)
    requires Count(s.users, ANONYMOUS) <= 1 && Count(s.orgs, LOCAL) <= 1
    ensures var t := Step(s, a);
      && Count(t.users, ANONYMOUS) <= 1 && Count(t.orgs, LOCAL) <= 1
      && (!Find(s.users, ANONYMOUS).Missing? ==> Find(t.users, ANONYMOUS) == Find(s.users, ANONYMOUS))
      && (!Find(s.orgs, LOCAL).Missing? ==> Find(t.orgs, LOCAL) == Find(s.orgs, LOCAL))
  {
    InsertKeeps(s.users, ANONYMOUS, a.id, ANONYMOUS);
    InsertKeeps(s.orgs, LOCAL, a.id, LOCAL);
  }

  /** The instance that moved knows the truth. */
  lemma OwnConsistent(s: State, a: Action)
    requires a.who < |s.instances| && Consistent(s, s.instances[a.who])
    ensures Consistent(Step(s, a), Step(s, a).instances[a.who])
  {
    FindAppend(s.users, Row(ANONYMOUS, a.id), ANONYMOUS);
    FindAppend(s.orgs, Row(LOCAL, a.id), LOCAL);
    FindNeverFails(s.users, ANONYMOUS);
    FindNeverFails(s.orgs, LOCAL);
  }

  lemma StepInv(s: State, a: Action)
    requires Inv(s)
    ensures Inv(Step(s, a))
  {
    if a.who < |s.instances| {
      var t := Step(s, a);
      TablesKept(s, a);
      OwnConsistent(s, a);
      forall i | 0 <= i < |t.instances| ensures Consistent(t, t.instances[i]) {
        if i != a.who {
          assert t.instances[i] == s.instances[i];
          StillConsistent(s, t, s.instances[i]);
        }
      }
    }
  }

  lemma {:induction false} RunInv(s: State, actions: seq<Action>)
    requires Inv(s)
    ensures Inv(Run(s, actions))
    decreases |actions|
  {
    if actions != [] {
      StepInv(s, actions[0]);
      RunInv(Step(s, actions[0]), actions[1..]);
    }
  }

  // ---------- what every run guarantees ----------

  function UserOf(pc: Pc): Answer {
    match pc case CreateUser => Failed case LookupUser => Failed
    case CreateOrg(u) => u case LookupOrg(u) => u case AddMember(u, _) => u case Started(u, _) => u
  }

  function OrgOf(pc: Pc): Answer {
    match pc case AddMember(_, o) => o case Started(_, o) => o case _ => Failed
  }

  /** In every interleaving of any number of instances there is at most one default user and
      one default organisation, "conflict but not found" never happens, and all instances
      that get identifiers get the same ones: those of the only rows. */
  lemma RaceSafe(s: State, actions: seq<Action>, i: nat)
    requires Initial(s) && i < |Run(s, actions).instances|
    ensures var t := Run(s, actions);
            && Count(t.users, ANONYMOUS) <= 1 && Count(t.orgs, LOCAL) <= 1
            && !UserOf(t.instances[i]).Missing? && !OrgOf(t.instances[i]).Missing?
            && (UserOf(t.instances[i]).Got? ==>
                  UserOf(t.instances[i]) == Find(t.users, ANONYMOUS) && Count(t.users, ANONYMOUS) == 1)
            && (OrgOf(t.instances[i]).Got? ==>
                  OrgOf(t.instances[i]) == Find(t.orgs, LOCAL) && Count(t.orgs, LOCAL) == 1)
  {
    RunInv(s, actions);
    var t := Run(s, actions);
    assert Consistent(t, t.instances[i]);
    CountFind(t.users, ANONYMOUS);
    CountFind(t.orgs, LOCAL);
  }

  /** No database error so far: every answer that is due is there. */
  predicate Healthy(pc: Pc) {
    match pc
    case CreateUser => true
    case LookupUser => true
    case CreateOrg(user) => user.Got?
    case LookupOrg(user) => user.Got?
    case AddMember(user, org) => user.Got? && org.Got?
    case Started(user, org) => user.Got? && org.Got?
  }

  ghost predicate AllHealthy(s: State) { forall i :: 0 <= i < |s.instances| ==> Healthy(s.instances[i]) }

  lemma StepHealthy(s: State, a: Action)
    requires Inv(s) && AllHealthy(s) && !a.fault
    ensures AllHealthy(Step(s, a))
  {
    if a.who < |s.instances| {
      assert Consistent(s, s.instances[a.who]) && Healthy(s.instances[a.who]);
      FindNeverFails(s.users, ANONYMOUS);
      FindNeverFails(s.orgs, LOCAL);
      var t := Step(s, a);
      forall i | 0 <= i < |t.instances| ensures Healthy(t.instances[i]) {
        if i != a.who { assert t.instances[i] == s.instances[i]; }
      }
    }
  }

  lemma {:induction false} RunHealthy(s: State, actions: seq<Action>)
    requires Inv(s) && AllHealthy(s) && forall k :: 0 <= k < |actions| ==> !actions[k].fault
    ensures AllHealthy(Run(s, actions))
    decreases |actions|
  {
    if actions != [] {
      StepHealthy(s, actions[0]);
      StepInv(s, actions[0]);
      RunHealthy(Step(s, actions[0]), actions[1..]);
    }
  }

  /** Without database errors all instances that finish have got a user and an organisation, the same
      ones, and these are the only ones. */
  lemma FinishersAgree(s: State, actions: seq<Action>, i: nat, j: nat)
    requires Initial(s) && forall k :: 0 <= k < |actions| ==> !actions[k].fault
    requires i < |Run(s, actions).instances| && j < |Run(s, actions).instances|
    requires Run(s, actions).instances[i].Started? && Run(s, actions).instances[j].Started?
    ensures var t := Run(s, actions);
            && t.instances[i] == t.instances[j] && t.instances[i].user.Got? && t.instances[i].org.Got?
            && Count(t.users, ANONYMOUS) == 1 && Count(t.orgs, LOCAL) == 1
  {
    RunHealthy(s, actions);
    assert Healthy(Run(s, actions).instances[i]) && Healthy(Run(s, actions).instances[j]);
    RaceSafe(s, actions, i);
    RaceSafe(s, actions, j);
  }

  /** A default user or organisation that exists keeps its identifier through any later run: restarts use
      the same one. */
  lemma {:induction false} SameAcrossRestarts(s: State, actions: seq<Action>)
    ensures !Find(s.users, ANONYMOUS).Missing? ==> Find(Run(s, actions).users, ANONYMOUS) == Find(s.users, ANONYMOUS)
    ensures !Find(s.orgs, LOCAL).Missing? ==> Find(Run(s, actions).orgs, LOCAL) == Find(s.orgs, LOCAL)
    decreases |actions|
  {
    if actions != [] {
      InsertKeeps(s.users, ANONYMOUS, actions[0].id, ANONYMOUS);
      InsertKeeps(s.orgs, LOCAL, actions[0].id, LOCAL);
      SameAcrossRestarts(Step(s, actions[0]), actions[1..]);
    }
  }

  /** No fault hits an instance while it adds its membership. */
  ghost predicate MemberFaultFree(s: State, actions: seq<Action>)
    decreases |actions|
  {
    actions != [] ==>
      && (actions[0].who < |s.instances| && s.instances[actions[0].who].AddMember? ==> !actions[0].fault)
      && MemberFaultFree(Step(s, actions[0]), actions[1..])
  }

  ghost predicate Joined(s: State) {
    forall i ::
      0 <= i < |s.instances| && s.instances[i].Started? && s.instances[i].user.Got? && s.instances[i].org.Got? ==>
      (s.instances[i].user.id, s.instances[i].org.id) in s.members
  }

  lemma {:induction false} JoinedAfter(s: State, actions: seq<Action>)
    requires Inv(s) && Joined(s) && MemberFaultFree(s, actions)
    ensures Joined(Run(s, actions))
    decreases |actions|
  {
    if actions != [] {
      var a, t := actions[0], Step(s, actions[0]);
      StepInv(s, a);
      assert s.members <= t.members;
      forall i | 0 <= i < |t.instances| && t.instances[i].Started? && t.instances[i].user.Got?
        && t.instances[i].org.Got?
        ensures (t.instances[i].user.id, t.instances[i].org.id) in t.members
      {
        if i != a.who { assert t.instances[i] == s.instances[i]; }
      }
      JoinedAfter(t, actions[1..]);
    }
  }

  /** Every started instance with both identifiers leaves the membership row present, and
      present once however many instances added it. */
  lemma MembershipOnce(s: State, actions: seq<Action>, i: nat)
    requires Initial(s) && MemberFaultFree(s, actions) && i < |Run(s, actions).instances|
    requires var pc := Run(s, actions).instances[i]; pc.Started? && pc.user.Got? && pc.org.Got?
    ensures var t := Run(s, actions);
            var member := (t.instances[i].user.id, t.instances[i].org.id);
            member in t.members && multiset(t.members)[member] == 1
  {
    RunInv(s, actions);
    JoinedAfter(s, actions);
    var t := Run(s, actions);
    CountOnce(t.members, (t.instances[i].user.id, t.instances[i].org.id));
  }

  lemma {:induction false} CountOnce(members: seq<(nat, nat)>, m: (nat, nat))
    requires Once(members) && m in members
    ensures multiset(members)[m] == 1
  {
    var k :| 0 <= k < |members| && members[k] == m;
    assert members == members[..k] + [m] + members[k + 1..];
    assert m !in members[..k] && m !in members[k + 1..];
  }
}
