/**
 The status condition list of controllers/conditions.go: an ordered list that every controller
 updates in place, one entry per condition type.
 */
module Conditions {
  import opened Base
  import opened Spoke

  datatype ConditionType = RequirementsMet | Completed | Failed | Stopped | OtherType(name: string)

  datatype ConditionStatus = True | False | Unknown

  datatype Reason =
    | UnknownReason
    | ConfigurationPending | ConfigurationFailed
    | HostValidationPending | HostValidationFailed
    | ImageCreationPending | ImageCreationFailed
    | HostConfigurationPending | HostConfigurationFailed | HostConfigurationSucceeded
    | InstallTimedOut | InstallInProgress | InstallSucceeded
    | OtherReason(name: string)

  /**
   A fixed text, or one that is rendered from a timeout or from the status of the installed cluster. Only the
   identity of a message matters here: two messages are equal or they are not.
   */
  datatype Message =
    | UnknownMessage
    | Text(id: nat)
    | TimeoutText(seconds: int)
    | StatusText(status: ClusterInstallStatus)

  datatype Condition = Condition(
    kind: ConditionType,
    status: ConditionStatus,
    reason: Reason,
    message: Message,
    lastTransition: int,
    lastProbe: int)

  // ---------------------------------------------------------------- lookup

  /** The first entry of type `kind`. */
  function Find(list: seq<Condition>, kind: ConditionType): Option<Condition> {
    if list == [] then None
    else if list[0].kind == kind then Some(list[0])
    else Find(list[1..], kind)
  }

  lemma {:induction false} FindSpec(list: seq<Condition>, kind: ConditionType)
    ensures Find(list, kind).Some? ==> Find(list, kind).value in list && Find(list, kind).value.kind == kind
    ensures Find(list, kind).None? <==> forall c :: c in list ==> c.kind != kind
  {
    if list != [] && list[0].kind != kind {
      FindSpec(list[1..], kind);
    }
  }

  function StatusOf(list: seq<Condition>, kind: ConditionType): Option<ConditionStatus> {
    match Find(list, kind)
    case None => None
    case Some(c) => Some(c.status)
  }

  predicate HasStatus(list: seq<Condition>, kind: ConditionType, status: ConditionStatus) {
    StatusOf(list, kind) == Some(status)
  }

  /** At most one entry per type. */
  predicate Distinct(list: seq<Condition>) {
    forall i, j :: 0 <= i < j < |list| ==> list[i].kind != list[j].kind
  }

  // ---------------------------------------------------------------- update

  predicate SameContent(a: Condition, b: Condition) {
    a.status == b.status && a.reason == b.reason && a.message == b.message
  }

  /** What one type's entry becomes when `c` is recorded at time `now`. */
  function Merge(existing: Option<Condition>, c: Condition, now: int): Condition {
    match existing
    case None => c.(lastTransition := now, lastProbe := now)
    case Some(e) =>
      if SameContent(e, c) then e
      else e.(status := c.status, reason := c.reason, message := c.message, lastProbe := now,
              lastTransition := if e.status == c.status then e.lastTransition else now)
  }

  /** The list after recording `c`: the first entry of its type is rewritten, or one is appended. */
  function Set(list: seq<Condition>, c: Condition, now: int): (r: seq<Condition>)
    ensures forall kind {:trigger Find(r, kind)} ::
              Find(r, kind) == if kind == c.kind then Some(Merge(Find(list, kind), c, now)) else Find(list, kind)
  {
    if list == [] then [Merge(None, c, now)]
    else if list[0].kind == c.kind then
      var r := [Merge(Some(list[0]), c, now)] + list[1..];
      assert r[1..] == list[1..];
      r
    else
      var r := [list[0]] + Set(list[1..], c, now);
      assert r[1..] == Set(list[1..], c, now);
      r
  }

  lemma {:induction false} SetShape(list: seq<Condition>, c: Condition, now: int)
    ensures |Set(list, c, now)| == |list| + (if Find(list, c.kind).None? then 1 else 0)
    ensures forall i :: 0 <= i < |list| ==> Set(list, c, now)[i].kind == list[i].kind
    ensures Find(list, c.kind).None? ==> Set(list, c, now)[|list|].kind == c.kind
  {
    if list != [] && list[0].kind != c.kind {
      SetShape(list[1..], c, now);
    }
  }

  lemma SetKeepsDistinct(list: seq<Condition>, c: Condition, now: int)
    requires Distinct(list)
    ensures Distinct(Set(list, c, now))
  {
    SetShape(list, c, now);
    FindSpec(list, c.kind);
    var r := Set(list, c, now);
    forall i, j | 0 <= i < j < |r| ensures r[i].kind != r[j].kind {
      if j == |list| {
        assert list[i] in list;
      }
    }
  }

  /** Recording a condition leaves the list alone exactly when the entry already says the same. */
  lemma {:induction false} SetUnchangedIff(list: seq<Condition>, c: Condition, now: int)
    ensures Set(list, c, now) == list
       <==> Find(list, c.kind).Some? && SameContent(Find(list, c.kind).value, c)
  {
    if list != [] && list[0].kind != c.kind {
      SetUnchangedIff(list[1..], c, now);
      assert Set(list, c, now)[1..] == Set(list[1..], c, now);
      assert list == [list[0]] + list[1..];
    } else if list != [] {
      assert Set(list, c, now)[0] == Merge(Some(list[0]), c, now);
      assert list == [list[0]] + list[1..];
    }
  }

  // ------------------------------------------- refinement of a type-keyed map

  type Table = map<ConditionType, Condition>

  function Kinds(list: seq<Condition>): set<ConditionType> {
    set c | c in list && Find(list, c.kind).Some? :: c.kind
  }

  /** The list read as a table: the first entry of each type. */
  function AsTable(list: seq<Condition>): Table {
    map kind | kind in Kinds(list) :: Find(list, kind).value
  }

  function TableSet(t: Table, c: Condition, now: int): Table {
    t[c.kind := Merge(if c.kind in t then Some(t[c.kind]) else None, c, now)]
  }

  lemma TableLookup(list: seq<Condition>, kind: ConditionType)
    ensures kind in AsTable(list) <==> Find(list, kind).Some?
    ensures kind in AsTable(list) ==> AsTable(list)[kind] == Find(list, kind).value
  {
    FindSpec(list, kind);
  }

  lemma SetRefinesTable(list: seq<Condition>, c: Condition, now: int)
    ensures AsTable(Set(list, c, now)) == TableSet(AsTable(list), c, now)
  {
    var a, b := AsTable(Set(list, c, now)), TableSet(AsTable(list), c, now);
    TableLookup(list, c.kind);
    forall kind ensures (kind in a <==> kind in b) && (kind in a ==> a[kind] == b[kind]) {
      TableLookup(list, kind);
      TableLookup(Set(list, c, now), kind);
    }
  }

  /** A write of one condition at one time. */
  datatype Update = Update(condition: Condition, at: int)

  function SetAll(list: seq<Condition>, updates: seq<Update>): seq<Condition>
    decreases |updates|
  {
    if updates == [] then list
    else SetAll(Set(list, updates[0].condition, updates[0].at), updates[1..])
  }

  function TableSetAll(t: Table, updates: seq<Update>): Table
    decreases |updates|
  {
    if updates == [] then t
    else TableSetAll(TableSet(t, updates[0].condition, updates[0].at), updates[1..])
  }

  /** Any sequence of updates keeps one entry per type and computes what the same updates do to a table. */
  lemma {:induction false} UpdatesRefineTable(list: seq<Condition>, updates: seq<Update>)
    ensures AsTable(SetAll(list, updates)) == TableSetAll(AsTable(list), updates)
    ensures Distinct(list) ==> Distinct(SetAll(list, updates))
    decreases |updates|
  {
    if updates != [] {
      var u := updates[0];
      SetRefinesTable(list, u.condition, u.at);
      if Distinct(list) {
        SetKeepsDistinct(list, u.condition, u.at);
      }
      UpdatesRefineTable(Set(list, u.condition, u.at), updates[1..]);
    }
  }

  /** Updates of different types may be made in either order: readers see the same table. */
  lemma UpdatesCommute(list: seq<Condition>, a: Update, b: Update)
    requires a.condition.kind != b.condition.kind
    ensures AsTable(SetAll(list, [a, b])) == AsTable(SetAll(list, [b, a]))
  {
    UpdatesRefineTable(list, [a, b]);
    UpdatesRefineTable(list, [b, a]);
    TableSetTwo(AsTable(list), a, b);
    TableSetTwo(AsTable(list), b, a);
  }

  lemma TableSetTwo(t: Table, a: Update, b: Update)
    ensures TableSetAll(t, [a, b]) == TableSet(TableSet(t, a.condition, a.at), b.condition, b.at)
  {
    var after := TableSet(t, a.condition, a.at);
    assert [a, b][1..] == [b] && [b][1..] == [];
    assert TableSetAll(after, [b]) == TableSetAll(TableSet(after, b.condition, b.at), []);
  }

  lemma {:induction false} SetAllAppend(list: seq<Condition>, updates: seq<Update>, u: Update)
    ensures SetAll(list, updates + [u]) == Set(SetAll(list, updates), u.condition, u.at)
    decreases |updates|
  {
    if updates == [] {
      assert [u][1..] == [];
      assert SetAll(list, [u]) == SetAll(Set(list, u.condition, u.at), []);
    } else {
      assert (updates + [u])[0] == updates[0] && (updates + [u])[1..] == updates[1..] + [u];
      SetAllAppend(Set(list, updates[0].condition, updates[0].at), updates[1..], u);
    }
  }

  /** From the update before `i` on, every update of this type has had this status. */
  predicate StatusSince(updates: seq<Update>, i: nat, kind: ConditionType, status: ConditionStatus) {
    forall j :: i <= j < |updates| && updates[j].condition.kind == kind ==> updates[j].condition.status == status
  }

  /**
   After any sequence of updates, the transition time of an entry is the time of the update that brought its present
   status about, and later updates only repeated that status; if no update changed it, it is the first one.
   */
  lemma {:induction false} TransitionStartsTheStatus(list: seq<Condition>, updates: seq<Update>, kind: ConditionType)
    returns (i: nat)
    requires Find(list, kind).Some?
    ensures i <= |updates|
    ensures var r := Find(SetAll(list, updates), kind);
      && r.Some? && StatusSince(updates, i, kind, r.value.status)
      && if i == 0 then && r.value.status == Find(list, kind).value.status
                        && r.value.lastTransition == Find(list, kind).value.lastTransition
         else && updates[i - 1].condition.kind == kind
              && updates[i - 1].condition.status == r.value.status
              && updates[i - 1].at == r.value.lastTransition
              && StatusOf(SetAll(list, updates[..i - 1]), kind) != Some(r.value.status)
    decreases |updates|
  {
    if updates == [] {
      return 0;
    }
    var n := |updates| - 1;
    var earlier, u := updates[..n], updates[n];
    assert updates == earlier + [u];
    SetAllAppend(list, earlier, u);
    i := TransitionStartsTheStatus(list, earlier, kind);
    var before := Find(SetAll(list, earlier), kind).value;
    if u.condition.kind == kind && u.condition.status != before.status {
      i := n + 1;
    } else if i > 0 {
      assert updates[..i - 1] == earlier[..i - 1] && updates[i - 1] == earlier[i - 1];
    }
  }

  /** What an entry says, its times aside. */
  function Saying(c: Condition): (ConditionStatus, Reason, Message) {
    (c.status, c.reason, c.message)
  }

  /** From the update before `i` on, every update of this type has said the same as `c`. */
  predicate ContentSince(updates: seq<Update>, i: nat, kind: ConditionType, c: Condition) {
    forall j :: i <= j < |updates| && updates[j].condition.kind == kind ==> Saying(updates[j].condition) == Saying(c)
  }

  /**
   After any sequence of updates an entry says what the last update of its type said, and its probe time is the time of
   the update that first said so; if no update said anything else, the entry is the first one.
   */
  lemma {:induction false} ProbeStartsTheContent(list: seq<Condition>, updates: seq<Update>, kind: ConditionType)
    returns (i: nat)
    requires Find(list, kind).Some?
    ensures i <= |updates|
    ensures var r := Find(SetAll(list, updates), kind);
      && r.Some? && ContentSince(updates, i, kind, r.value)
      && if i == 0 then r == Find(list, kind)
         else && updates[i - 1].condition.kind == kind
              && Saying(updates[i - 1].condition) == Saying(r.value)
              && updates[i - 1].at == r.value.lastProbe
              && var before := Find(SetAll(list, updates[..i - 1]), kind);
                 before.Some? && Saying(before.value) != Saying(r.value)
    decreases |updates|
  {
    if updates == [] {
      return 0;
    }
    var n := |updates| - 1;
    var earlier, u := updates[..n], updates[n];
    assert updates == earlier + [u];
    SetAllAppend(list, earlier, u);
    i := ProbeStartsTheContent(list, earlier, kind);
    var before := Find(SetAll(list, earlier), kind).value;
    if u.condition.kind == kind && Saying(before) != Saying(u.condition) {
      i := n + 1;
    } else if i > 0 {
      assert updates[..i - 1] == earlier[..i - 1] && updates[i - 1] == earlier[i - 1];
    }
  }

  // ------------------------------------------------------- groups of updates

  function Blank(kind: ConditionType): Condition {
    Condition(kind, Unknown, UnknownReason, UnknownMessage, 0, 0)
  }

  /** Adds one initial condition unless its type is there already. */
  function AddIfMissing(list: seq<Condition>, kind: ConditionType, now: int): (r: seq<Condition>)
    ensures forall k {:trigger Find(r, k)} :: Find(r, k) ==
              if k == kind && Find(list, k).None? then Some(Merge(None, Blank(kind), now)) else Find(list, k)
  {
    if Find(list, kind).Some? then list else Set(list, Blank(kind), now)
  }

  function AddMissing(list: seq<Condition>, kinds: seq<ConditionType>, now: int): (r: seq<Condition>)
    ensures forall k {:trigger Find(r, k)} :: Find(r, k) ==
              if k in kinds && Find(list, k).None? then Some(Merge(None, Blank(k), now)) else Find(list, k)
    decreases |kinds|
  {
    if kinds == [] then list else AddMissing(AddIfMissing(list, kinds[0], now), kinds[1..], now)
  }

  /** The four types every installation reports, in the order they are first recorded. */
  const INITIAL_KINDS: seq<ConditionType> := [RequirementsMet, Completed, Failed, Stopped]

  function Initialized(list: seq<Condition>, now: int): (r: seq<Condition>)
    ensures forall k {:trigger Find(r, k)} :: k == RequirementsMet || k == Completed || k == Failed || k == Stopped ==>
              Find(r, k) == if Find(list, k).None? then Some(Merge(None, Blank(k), now)) else Find(list, k)
  {
    AddMissing(list, INITIAL_KINDS, now)
  }

  /** A type that was not reported yet starts as Unknown, now; a reported one is left alone. */
  lemma NewTypesAreUnknown(list: seq<Condition>, now: int, kind: ConditionType)
    requires kind == RequirementsMet || kind == Completed || kind == Failed || kind == Stopped
    ensures Find(Initialized(list, now), kind) ==
              if Find(list, kind).Some? then Find(list, kind)
              else Some(Condition(kind, Unknown, UnknownReason, UnknownMessage, now, now))
  {
    hide Initialized;
  }

  lemma {:induction false} AddMissingUnchangedIff(list: seq<Condition>, kinds: seq<ConditionType>, now: int)
    ensures |AddMissing(list, kinds, now)| >= |list|
    ensures Distinct(list) ==> Distinct(AddMissing(list, kinds, now))
    ensures AddMissing(list, kinds, now) == list <==> forall k :: k in kinds ==> Find(list, k).Some?
    decreases |kinds|
  {
    if kinds != [] {
      var k := kinds[0];
      var next := AddIfMissing(list, k, now);
      SetShape(list, Blank(k), now);
      if Distinct(list) {
        SetKeepsDistinct(list, Blank(k), now);
      }
      AddMissingUnchangedIff(next, kinds[1..], now);
      assert forall j :: j in kinds <==> j == k || j in kinds[1..];
      assert k in kinds;
    }
  }

  /** The content the monitor gives to Completed, Stopped and Failed in one patch. */
  datatype Progress = Progress(completed: Condition, stopped: Condition, failed: Condition)

  predicate WellTyped(p: Progress) {
    p.completed.kind == Completed && p.stopped.kind == Stopped && p.failed.kind == Failed
  }

  function SetProgress(list: seq<Condition>, p: Progress, now: int): (r: seq<Condition>)
    requires WellTyped(p)
    ensures Find(r, Completed) == Some(Merge(Find(list, Completed), p.completed, now))
    ensures Find(r, Stopped) == Some(Merge(Find(list, Stopped), p.stopped, now))
    ensures Find(r, Failed) == Some(Merge(Find(list, Failed), p.failed, now))
    ensures Find(r, RequirementsMet) == Find(list, RequirementsMet)
  {
    Set(Set(Set(list, p.completed, now), p.stopped, now), p.failed, now)
  }

  /** The three updates leave the list alone exactly when each of them does, so that one patch serves all three. */
  lemma SetProgressUnchangedIff(list: seq<Condition>, p: Progress, now: int)
    requires WellTyped(p)
    ensures SetProgress(list, p, now) == list <==>
              && Set(list, p.completed, now) == list
              && Set(Set(list, p.completed, now), p.stopped, now) == Set(list, p.completed, now)
              && SetProgress(list, p, now) == Set(Set(list, p.completed, now), p.stopped, now)
  {
    var one := Set(list, p.completed, now);
    var two := Set(one, p.stopped, now);
    SetUnchangedIff(list, p.completed, now);
    SetUnchangedIff(one, p.stopped, now);
    SetUnchangedIff(two, p.failed, now);
    var three := SetProgress(list, p, now);
    if three == list {
      assert Find(three, Completed) == Some(Merge(Find(list, Completed), p.completed, now));
      assert Find(three, Stopped) == Some(Merge(Find(list, Stopped), p.stopped, now));
      assert Find(one, Stopped) == Find(list, Stopped);
      assert Find(three, Failed) == Some(Merge(Find(list, Failed), p.failed, now));
      assert Find(two, Failed) == Find(list, Failed);
    }
  }

  lemma SetProgressKeepsDistinct(list: seq<Condition>, p: Progress, now: int)
    requires Distinct(list) && WellTyped(p)
    ensures Distinct(SetProgress(list, p, now))
  {
    SetKeepsDistinct(list, p.completed, now);
    SetKeepsDistinct(Set(list, p.completed, now), p.stopped, now);
    SetKeepsDistinct(Set(Set(list, p.completed, now), p.stopped, now), p.failed, now);
  }

  lemma InitializedKeepsDistinct(list: seq<Condition>, now: int)
    requires Distinct(list)
    ensures Distinct(Initialized(list, now))
  {
    AddMissingUnchangedIff(list, INITIAL_KINDS, now);
  }

  // --------------------------------------------------- the in-place list

  /** The list behind the pointer that `setClusterInstallCondition` updates. */
  class ConditionList {
    var items: seq<Condition>

    constructor (items: seq<Condition>)
      ensures this.items == items
    {
      this.items := items;
    }

    /** Index of the first entry of a type, or -1. */
    method FindCondition(kind: ConditionType) returns (i: int)
      ensures -1 <= i < |items|
      ensures i >= 0 ==> Find(items, kind) == Some(items[i]) && items[i].kind == kind
      ensures forall j :: 0 <= j < i ==> items[j].kind != kind
      ensures i < 0 ==> Find(items, kind) == None
    {
      i := 0;
      while i < |items|
        invariant 0 <= i <= |items|
        invariant forall j :: 0 <= j < i ==> items[j].kind != kind
        invariant Find(items, kind) == Find(items[i..], kind)
      {
        if items[i].kind == kind {
          return i;
        }
        assert items[i..][1..] == items[i + 1..];
        i := i + 1;
      }
      i := -1;
    }

    /** Records `c`; false exactly when the list already said so. */
    method SetClusterInstallCondition(c: Condition, now: int) returns (updated: bool)
      modifies this
      ensures items == Set(old(items), c, now)
      ensures updated <==> items != old(items)
    {
      SetUnchangedIff(items, c, now);
      var i := FindCondition(c.kind);
      if i < 0 {
        SetAppends(items, c, now);
        items := items + [c.(lastTransition := now, lastProbe := now)];
        return true;
      }
      SetRewrites(items, c, now, i);
      if items[i].status == c.status && items[i].reason == c.reason && items[i].message == c.message {
        return false;
      }
      if items[i].status != c.status {
        items := items[i := items[i].(status := c.status, lastTransition := now)];
      }
      items := items[i := items[i].(lastProbe := now, reason := c.reason, message := c.message)];
      assert items == old(items)[i := Merge(Some(old(items)[i]), c, now)];
      updated := true;
    }

    /** Completed, Stopped and Failed, one after the other; true when any of them changed. */
    method SetProgressConditions(p: Progress, now: int) returns (updated: bool)
      requires WellTyped(p)
      modifies this
      ensures items == SetProgress(old(items), p, now)
      ensures updated <==> items != old(items)
    {
      SetProgressUnchangedIff(items, p, now);
      var completedUpdated := SetClusterInstallCondition(p.completed, now);
      var stoppedUpdated := SetClusterInstallCondition(p.stopped, now);
      var failedUpdated := SetClusterInstallCondition(p.failed, now);
      updated := completedUpdated || stoppedUpdated || failedUpdated;
    }

    /** Adds the missing initial conditions one by one and says whether a patch is needed. */
    method InitializeConditions(now: int) returns (needToPatch: bool)
      modifies this
      ensures items == Initialized(old(items), now)
      ensures needToPatch <==> items != old(items)
      ensures needToPatch <==> exists k :: k in INITIAL_KINDS && Find(old(items), k).None?
    {
      needToPatch := false;
      AddMissingUnchangedIff(items, INITIAL_KINDS, now);
      for i := 0 to |INITIAL_KINDS|
        invariant AddMissing(items, INITIAL_KINDS[i..], now) == AddMissing(old(items), INITIAL_KINDS, now)
        invariant needToPatch ==> |items| > |old(items)|
        invariant !needToPatch ==> items == old(items)
      {
        var kind := INITIAL_KINDS[i];
        assert INITIAL_KINDS[i..][0] == kind && INITIAL_KINDS[i..][1..] == INITIAL_KINDS[i + 1..];
        var at := FindCondition(kind);
        if at < 0 {
          SetShape(items, Blank(kind), now);
          var updated := SetClusterInstallCondition(Blank(kind), now);
          if updated {
            needToPatch := true;
          }
        }
      }
    }
  }

  lemma {:induction false} SetAppends(list: seq<Condition>, c: Condition, now: int)
    requires Find(list, c.kind).None?
    ensures Set(list, c, now) == list + [c.(lastTransition := now, lastProbe := now)]
  {
    if list != [] {
      SetAppends(list[1..], c, now);
    }
  }

  lemma {:induction false} SetRewrites(list: seq<Condition>, c: Condition, now: int, i: nat)
    requires i < |list| && list[i].kind == c.kind
    requires forall j :: 0 <= j < i ==> list[j].kind != c.kind
    ensures Set(list, c, now) == list[i := Merge(Some(list[i]), c, now)]
  {
    if i > 0 {
      SetRewrites(list[1..], c, now, i - 1);
    }
  }
}
