/** The power-management callback lists of source/cyhal_syspm.c, as values.
    A callback structure (cyhal_syspm_callback_data_t) is known by its
    address, an Id; its `next` pointers live in a map from Id to Link, and a
    list is described by the sequence of Ids a walk from its head visits.
    The callback functions themselves are foreign code: what each answers
    is the parameter `answer`, and what a dispatch does is the sequence of
    calls it makes. */
module SyspmChain {
  import opened Results

  /** The bits of cyhal_syspm_callback_state_t.  A state argument or a
      `states` field is the set of its bits; `(states & state) == state` is
      then `state <= states`. */
  datatype PmState = CpuSleep | CpuDeepSleep | SystemHibernate | SystemNormal | SystemLow
  type StateSet = set<PmState>

  /** CYHAL_SYSPM_CB_CPU_DEEPSLEEP | CYHAL_SYSPM_CB_SYSTEM_HIBERNATE */
  const DeepStates: StateSet := {CpuDeepSleep, SystemHibernate}

  /** cyhal_syspm_callback_mode_t.  A mode argument is a single bit and
      `(ignore_modes & mode) != mode` is `mode !in ignoreModes`. */
  datatype PmMode = CheckReady | CheckFail | BeforeTransition | AfterTransition

  type Id = nat

  /** A `next` pointer or list head: NULL, CYHAL_SYSPM_END_OF_LIST or a
      callback structure. */
  datatype Link = Null | EndOfList | Node(id: Id)

  /** A callback structure apart from its `next` pointer and its `args`. */
  datatype CallbackData = CallbackData(hasCallback: bool, states: StateSet, ignoreModes: set<PmMode>)

  /** One invocation `entry->callback(state, mode, entry->args)`. */
  datatype Call = Call(id: Id, state: StateSet, mode: PmMode)

  /** What each callback answers when invoked. */
  type Answer = (Id, StateSet, PmMode) -> bool

  /** The test both walks apply before invoking an entry. */
  predicate Eligible(d: CallbackData, state: StateSet, mode: PmMode)
  {
    d.hasCallback && state <= d.states && mode !in d.ignoreModes
  }

  predicate InData(data: map<Id, CallbackData>, l: seq<Id>)
  {
    forall i :: 0 <= i < |l| ==> l[i] in data
  }

  predicate Distinct(l: seq<Id>)
  {
    forall i, j :: 0 <= i < j < |l| ==> l[i] != l[j]
  }

  /** No entry is on both lists. */
  predicate Disjoint(l: seq<Id>, m: seq<Id>)
  {
    forall y :: y in l ==> y !in m
  }

  /** The link to the entry at position i of a list, or the end marker. */
  function LinkAt(l: seq<Id>, i: nat): Link
  {
    if i < |l| then Node(l[i]) else EndOfList
  }

  /** `head` and the `next` pointers of the entries of `l` form the list l,
      ending in CYHAL_SYSPM_END_OF_LIST. */
  ghost predicate Chain(next: map<Id, Link>, head: Link, l: seq<Id>)
  {
    head == LinkAt(l, 0) &&
    forall i :: 0 <= i < |l| ==> l[i] in next && next[l[i]] == LinkAt(l, i + 1)
  }

  /** In a list without repeats, two positions have the same link only if
      they are the same position. */
  lemma LinkAtInjective(l: seq<Id>, i: nat, k: nat)
    requires Distinct(l) && i <= |l| && k <= |l|
    requires LinkAt(l, i) == LinkAt(l, k)
    ensures i == k
  {
  }

  /** The calls a walk makes on the entries `l` that pass Eligible, in order. */
  function Eligibles(data: map<Id, CallbackData>, l: seq<Id>, state: StateSet, mode: PmMode): (calls: seq<Call>)
    requires InData(data, l)
    decreases |l|
  {
    if |l| == 0 then []
    else
      var last := l[|l| - 1];
      Eligibles(data, l[..|l| - 1], state, mode)
      + (if Eligible(data[last], state, mode) then [Call(last, state, mode)] else [])
  }

  /** Eligibles takes one entry after another. */
  lemma EligiblesSnoc(data: map<Id, CallbackData>, l: seq<Id>, i: nat, state: StateSet, mode: PmMode)
    requires InData(data, l) && i < |l|
    ensures Eligibles(data, l[..i + 1], state, mode)
            == Eligibles(data, l[..i], state, mode)
            + (if Eligible(data[l[i]], state, mode) then [Call(l[i], state, mode)] else [])
  {
    assert l[..i + 1][..i] == l[..i];
  }

  /** On a list without repeats, each entry gets exactly one call if it is
      eligible, none otherwise, and no call has another mode or state. */
  lemma {:induction false} EligiblesCount(data: map<Id, CallbackData>, l: seq<Id>, state: StateSet, mode: PmMode, c: Call)
    requires InData(data, l) && Distinct(l)
    ensures multiset(Eligibles(data, l, state, mode))[c]
            == (if c.mode == mode && c.state == state && c.id in l && Eligible(data[c.id], state, mode) then 1 else 0)
    decreases |l|
  {
    if |l| > 0 {
      var init := l[..|l| - 1];
      assert Distinct(init);
      EligiblesCount(data, init, state, mode, c);
      assert c.id in l <==> c.id in init || c.id == l[|l| - 1];
      assert c.id == l[|l| - 1] ==> c.id !in init;
    }
  }

  /** Every call a walk makes is on an entry of the list. */
  lemma {:induction false} EligiblesWithin(data: map<Id, CallbackData>, l: seq<Id>, state: StateSet, mode: PmMode)
    requires InData(data, l)
    ensures forall c :: c in Eligibles(data, l, state, mode) ==> c.id in l && c.mode == mode
    decreases |l|
  {
    if |l| > 0 {
      EligiblesWithin(data, l[..|l| - 1], state, mode);
    }
  }

  /** An entry refuses a CHECK_READY request: it is invoked and answers
      false.  In any other mode, `|| mode != CYHAL_SYSPM_CHECK_READY` keeps
      `allow` true. */
  predicate Refuses(d: CallbackData, answer: Answer, id: Id, state: StateSet, mode: PmMode)
  {
    Eligible(d, state, mode) && mode == CheckReady && !answer(id, state, mode)
  }

  /** The position of the first refusing entry of `l`, or |l| if none refuses. */
  function FirstRefusal(data: map<Id, CallbackData>, l: seq<Id>, answer: Answer, state: StateSet, mode: PmMode): (k: nat)
    requires InData(data, l)
    ensures k <= |l|
    ensures forall j :: 0 <= j < k ==> !Refuses(data[l[j]], answer, l[j], state, mode)
    ensures k < |l| ==> Refuses(data[l[k]], answer, l[k], state, mode)
    ensures mode != CheckReady ==> k == |l|
    decreases |l|
  {
    if |l| == 0 then 0
    else if Refuses(data[l[0]], answer, l[0], state, mode) then 0
    else 1 + FirstRefusal(data, l[1..], answer, state, mode)
  }

  /** The position where a walk stops is the only one that fits the
      description: nothing refuses before it, and it refuses or is the end. */
  lemma FirstRefusalUnique(data: map<Id, CallbackData>, l: seq<Id>, answer: Answer, state: StateSet, mode: PmMode, i: nat)
    requires InData(data, l) && i <= |l|
    requires forall j :: 0 <= j < i ==> !Refuses(data[l[j]], answer, l[j], state, mode)
    requires i < |l| ==> Refuses(data[l[i]], answer, l[i], state, mode)
    ensures FirstRefusal(data, l, answer, state, mode) == i
  {
  }

  /** The entries a CHECK_READY walk reaches: up to and including the
      refusing one. */
  function Reached(l: seq<Id>, k: nat): seq<Id>
    requires k <= |l|
  {
    if k < |l| then l[..k + 1] else l
  }

  /** The outcome of _cyhal_syspm_common_cb: its result and the calls made. */
  datatype Outcome = Outcome(result: Rslt, calls: seq<Call>)

  /** Whether the deep-sleep lock short-circuits a request. */
  predicate Locked(lock: int, state: StateSet, mode: PmMode)
  {
    state <= DeepStates && mode == CheckReady && lock != 0
  }

  /** The list that runs first: the peripheral list for CHECK_FAIL and
      AFTER_TRANSITION, the user list otherwise. */
  predicate PeripheralFirst(mode: PmMode)
  {
    mode == CheckFail || mode == AfterTransition
  }

  /** The walk of one list: its eligible entries up to and including the
      refusing one, or all of it when none refuses. */
  function ReadyCalls(data: map<Id, CallbackData>, l: seq<Id>, answer: Answer, state: StateSet, mode: PmMode): seq<Call>
    requires InData(data, l)
  {
    Eligibles(data, Reached(l, FirstRefusal(data, l, answer, state, mode)), state, mode)
  }

  /** The backtracking walk of one list, from its head up to position k. */
  function BackCalls(data: map<Id, CallbackData>, l: seq<Id>, k: nat, state: StateSet): seq<Call>
    requires InData(data, l) && k <= |l|
  {
    Eligibles(data, l[..k], state, CheckFail)
  }

  /** A walk that stopped at position i, nothing refusing before it and the
      entry at i refusing unless i is the end, made the calls ReadyCalls
      describes. */
  lemma ReadyCallsAt(data: map<Id, CallbackData>, l: seq<Id>, answer: Answer, state: StateSet, mode: PmMode, i: nat)
    requires InData(data, l) && i <= |l|
    requires forall j :: 0 <= j < i ==> !Refuses(data[l[j]], answer, l[j], state, mode)
    requires i < |l| ==> Refuses(data[l[i]], answer, l[i], state, mode)
    ensures FirstRefusal(data, l, answer, state, mode) == i
    ensures ReadyCalls(data, l, answer, state, mode) == Eligibles(data, Reached(l, i), state, mode)
  {
    FirstRefusalUnique(data, l, answer, state, mode, i);
  }

  /** The dispatch part of _cyhal_syspm_common_cb, once the lists are put in
      order: `first` runs, `second` runs if nothing refused, and a refusal
      backtracks the second list and then the first, each from its head to
      where its walk stopped (its head when it was not walked). */
  function Dispatch(data: map<Id, CallbackData>, first: seq<Id>, second: seq<Id>,
                    answer: Answer, state: StateSet, mode: PmMode): (r: Outcome)
    requires InData(data, first) && InData(data, second)
    ensures r.result == Success || r.result == SyspmPmPending
    ensures r.result == Success <==>
      FirstRefusal(data, first, answer, state, mode) == |first| && FirstRefusal(data, second, answer, state, mode) == |second|
  {
    var k1 := FirstRefusal(data, first, answer, state, mode);
    var walked := k1 == |first|;
    var k2 := if walked then FirstRefusal(data, second, answer, state, mode) else 0;
    var ready := ReadyCalls(data, first, answer, state, mode)
                 + (if walked then ReadyCalls(data, second, answer, state, mode) else []);
    if walked && k2 == |second| then Outcome(Success, ready)
    else Outcome(SyspmPmPending, ready + BackCalls(data, second, k2, state) + BackCalls(data, first, k1, state))
  }

  /** A refusal in the first list: its walk up to the refuser, then
      CHECK_FAIL for the entries before the refuser. */
  lemma DispatchRefusedFirst(data: map<Id, CallbackData>, first: seq<Id>, second: seq<Id>,
                             answer: Answer, state: StateSet, mode: PmMode)
    requires InData(data, first) && InData(data, second)
    requires FirstRefusal(data, first, answer, state, mode) < |first|
    ensures var k1 := FirstRefusal(data, first, answer, state, mode);
            Dispatch(data, first, second, answer, state, mode)
            == Outcome(SyspmPmPending, Eligibles(data, first[..k1 + 1], state, mode)
                                       + Eligibles(data, first[..k1], state, CheckFail))
  {
    assert second[..0] == [];
  }

  /** A refusal in the second list: both walks, then CHECK_FAIL for the
      entries of the second list before the refuser and for all of the
      first. */
  lemma DispatchRefusedSecond(data: map<Id, CallbackData>, first: seq<Id>, second: seq<Id>,
                              answer: Answer, state: StateSet, mode: PmMode)
    requires InData(data, first) && InData(data, second)
    requires FirstRefusal(data, first, answer, state, mode) == |first|
    requires FirstRefusal(data, second, answer, state, mode) < |second|
    ensures var k2 := FirstRefusal(data, second, answer, state, mode);
            Dispatch(data, first, second, answer, state, mode)
            == Outcome(SyspmPmPending, Eligibles(data, first, state, mode)
                                       + Eligibles(data, second[..k2 + 1], state, mode)
                                       + Eligibles(data, second[..k2], state, CheckFail)
                                       + Eligibles(data, first, state, CheckFail))
  {
    assert first[..|first|] == first;
  }

  /** No refusal: both walks over their whole lists, and success. */
  lemma DispatchAllow(data: map<Id, CallbackData>, first: seq<Id>, second: seq<Id>,
                      answer: Answer, state: StateSet, mode: PmMode)
    requires InData(data, first) && InData(data, second)
    requires FirstRefusal(data, first, answer, state, mode) == |first|
    requires FirstRefusal(data, second, answer, state, mode) == |second|
    ensures Dispatch(data, first, second, answer, state, mode)
            == Outcome(Success, Eligibles(data, first, state, mode) + Eligibles(data, second, state, mode))
  {
  }

  /** _cyhal_syspm_common_cb over the user list `user` and the peripheral
      list `periph`. */
  function CommonCb(data: map<Id, CallbackData>, user: seq<Id>, periph: seq<Id>, lock: int,
                    answer: Answer, state: StateSet, mode: PmMode): Outcome
    requires InData(data, user) && InData(data, periph)
  {
    if Locked(lock, state, mode) then Outcome(SyspmPmPending, [])
    else if PeripheralFirst(mode) then Dispatch(data, periph, user, answer, state, mode)
    else Dispatch(data, user, periph, answer, state, mode)
  }

  /** With the deep-sleep lock held, a CHECK_READY request for a state made
      only of the deep-sleep and hibernate bits is pending and no callback
      runs. */
  lemma CommonCbLocked(data: map<Id, CallbackData>, user: seq<Id>, periph: seq<Id>, lock: int,
                       answer: Answer, state: StateSet)
    requires InData(data, user) && InData(data, periph)
    requires lock != 0 && state <= DeepStates
    ensures CommonCb(data, user, periph, lock, answer, state, CheckReady) == Outcome(SyspmPmPending, [])
  {
  }

  /** Only a CHECK_READY request can be refused; in the other modes every
      eligible entry of both lists runs, the peripheral list first for
      CHECK_FAIL and AFTER_TRANSITION and the user list first otherwise. */
  lemma CommonCbOtherModes(data: map<Id, CallbackData>, user: seq<Id>, periph: seq<Id>, lock: int,
                           answer: Answer, state: StateSet, mode: PmMode)
    requires InData(data, user) && InData(data, periph)
    requires mode != CheckReady
    ensures var o := CommonCb(data, user, periph, lock, answer, state, mode);
            o.result == Success &&
            o.calls == (if PeripheralFirst(mode)
                        then Eligibles(data, periph, state, mode) + Eligibles(data, user, state, mode)
                        else Eligibles(data, user, state, mode) + Eligibles(data, periph, state, mode))
  {
  }

  /** A CHECK_READY request that is not locked out succeeds exactly when no
      entry of either list refuses; then the user list's eligible entries
      run before the peripheral list's. */
  lemma CommonCbReady(data: map<Id, CallbackData>, user: seq<Id>, periph: seq<Id>, lock: int,
                      answer: Answer, state: StateSet)
    requires InData(data, user) && InData(data, periph)
    requires !Locked(lock, state, CheckReady)
    ensures var o := CommonCb(data, user, periph, lock, answer, state, CheckReady);
            (o.result == Success <==>
              (forall i :: 0 <= i < |user| ==> !Refuses(data[user[i]], answer, user[i], state, CheckReady)) &&
              (forall i :: 0 <= i < |periph| ==> !Refuses(data[periph[i]], answer, periph[i], state, CheckReady))) &&
            (o.result == Success ==>
              o.calls == Eligibles(data, user, state, CheckReady) + Eligibles(data, periph, state, CheckReady)) &&
            (o.result != Success ==> o.result == SyspmPmPending)
  {
    var k1 := FirstRefusal(data, user, answer, state, CheckReady);
    if k1 == |user| {
      var k2 := FirstRefusal(data, periph, answer, state, CheckReady);
      assert k2 < |periph| ==> Refuses(data[periph[k2]], answer, periph[k2], state, CheckReady);
    } else {
      assert Refuses(data[user[k1]], answer, user[k1], state, CheckReady);
    }
  }

  /** The entries a refused CHECK_READY request visits before the refusing
      one: the user list up to the refuser, or all of it and the peripheral
      list up to the refuser. */
  function VisitedBefore(data: map<Id, CallbackData>, user: seq<Id>, periph: seq<Id>,
                         answer: Answer, state: StateSet): seq<Id>
    requires InData(data, user) && InData(data, periph)
  {
    var k1 := FirstRefusal(data, user, answer, state, CheckReady);
    if k1 < |user| then user[..k1]
    else user + periph[..FirstRefusal(data, periph, answer, state, CheckReady)]
  }

  /** The refusing entry of a refused CHECK_READY request. */
  function Refuser(data: map<Id, CallbackData>, user: seq<Id>, periph: seq<Id>,
                   answer: Answer, state: StateSet): Id
    requires InData(data, user) && InData(data, periph)
    requires CommonCb(data, user, periph, 0, answer, state, CheckReady).result != Success
  {
    var k1 := FirstRefusal(data, user, answer, state, CheckReady);
    if k1 < |user| then user[k1]
    else periph[FirstRefusal(data, periph, answer, state, CheckReady)]
  }

  /** A prefix of a list without repeats is without repeats. */
  lemma DistinctPrefix(l: seq<Id>, k: nat)
    requires Distinct(l) && k <= |l|
    ensures Distinct(l[..k])
  {
  }

  /** A CHECK_READY request that is not locked out and does not succeed was
      refused in one of the lists. */
  lemma RefusedSomewhere(data: map<Id, CallbackData>, user: seq<Id>, periph: seq<Id>, lock: int,
                         answer: Answer, state: StateSet)
    requires InData(data, user) && InData(data, periph)
    requires !Locked(lock, state, CheckReady)
    requires CommonCb(data, user, periph, lock, answer, state, CheckReady).result != Success
    ensures FirstRefusal(data, user, answer, state, CheckReady) < |user|
            || FirstRefusal(data, periph, answer, state, CheckReady) < |periph|
  {
    if FirstRefusal(data, user, answer, state, CheckReady) == |user|
       && FirstRefusal(data, periph, answer, state, CheckReady) == |periph| {
      DispatchAllow(data, user, periph, answer, state, CheckReady);
    }
  }

  /** The calls of a request refused in its user list: the CHECK_READY calls
      up to the refuser, then CHECK_FAIL for the entries before it. */
  lemma RefusedInUserCalls(data: map<Id, CallbackData>, user: seq<Id>, periph: seq<Id>, lock: int,
                           answer: Answer, state: StateSet)
    requires InData(data, user) && InData(data, periph)
    requires !Locked(lock, state, CheckReady)
    requires FirstRefusal(data, user, answer, state, CheckReady) < |user|
    ensures var k1 := FirstRefusal(data, user, answer, state, CheckReady);
            CommonCb(data, user, periph, lock, answer, state, CheckReady).calls
            == Eligibles(data, user[..k1 + 1], state, CheckReady) + Eligibles(data, user[..k1], state, CheckFail)
  {
    DispatchRefusedFirst(data, user, periph, answer, state, CheckReady);
  }

  /** Counting the CHECK_FAIL calls of a request refused at position k of
      its user list. */
  lemma RefusedInUser(data: map<Id, CallbackData>, user: seq<Id>, k: nat, state: StateSet, c: Call)
    requires InData(data, user) && Distinct(user)
    requires k < |user| && c.mode == CheckFail
    ensures multiset(Eligibles(data, user[..k + 1], state, CheckReady) + Eligibles(data, user[..k], state, CheckFail))[c]
            == (if c.state == state && c.id in user[..k] && Eligible(data[c.id], state, CheckFail) then 1 else 0)
  {
    DistinctPrefix(user, k + 1);
    DistinctPrefix(user, k);
    EligiblesCount(data, user[..k + 1], state, CheckReady, c);
    EligiblesCount(data, user[..k], state, CheckFail, c);
  }

  /** The calls of a request refused in its peripheral list: CHECK_READY up
      to the refuser, then CHECK_FAIL for the peripheral entries before it
      and for the whole user list. */
  lemma RefusedInPeriphCalls(data: map<Id, CallbackData>, user: seq<Id>, periph: seq<Id>, lock: int,
                             answer: Answer, state: StateSet)
    requires InData(data, user) && InData(data, periph)
    requires !Locked(lock, state, CheckReady)
    requires FirstRefusal(data, user, answer, state, CheckReady) == |user|
    requires FirstRefusal(data, periph, answer, state, CheckReady) < |periph|
    ensures var k2 := FirstRefusal(data, periph, answer, state, CheckReady);
            CommonCb(data, user, periph, lock, answer, state, CheckReady).calls
            == Eligibles(data, user, state, CheckReady) + Eligibles(data, periph[..k2 + 1], state, CheckReady)
            + Eligibles(data, periph[..k2], state, CheckFail) + Eligibles(data, user, state, CheckFail)
  {
    DispatchRefusedSecond(data, user, periph, answer, state, CheckReady);
  }

  /** Counting the CHECK_FAIL calls of a request refused at position k of
      its peripheral list. */
  lemma RefusedInPeriph(data: map<Id, CallbackData>, user: seq<Id>, periph: seq<Id>, k: nat, state: StateSet, c: Call)
    requires InData(data, user) && InData(data, periph) && Distinct(user) && Distinct(periph)
    requires Disjoint(user, periph)
    requires k < |periph| && c.mode == CheckFail
    ensures multiset(Eligibles(data, user, state, CheckReady) + Eligibles(data, periph[..k + 1], state, CheckReady)
                     + Eligibles(data, periph[..k], state, CheckFail) + Eligibles(data, user, state, CheckFail))[c]
            == (if c.state == state && c.id in user + periph[..k] && Eligible(data[c.id], state, CheckFail) then 1 else 0)
  {
    var r2 := periph[..k + 1];
    var b := periph[..k];
    DistinctPrefix(periph, k + 1);
    DistinctPrefix(periph, k);
    var e1 := Eligibles(data, user, state, CheckReady);
    var e2 := Eligibles(data, r2, state, CheckReady);
    var e3 := Eligibles(data, b, state, CheckFail);
    var e4 := Eligibles(data, user, state, CheckFail);
    EligiblesCount(data, user, state, CheckReady, c);
    EligiblesCount(data, r2, state, CheckReady, c);
    EligiblesCount(data, b, state, CheckFail, c);
    EligiblesCount(data, user, state, CheckFail, c);
    assert multiset(e1 + e2 + e3 + e4)[c] == multiset(e3)[c] + multiset(e4)[c];
    if c.id in b {
      var j :| 0 <= j < |b| && b[j] == c.id;
      assert periph[j] == c.id;
    }
  }

  /** When a CHECK_READY request is refused, each entry visited before the
      refuser that does not ignore CHECK_FAIL gets exactly one CHECK_FAIL
      call; every other entry, the refuser included, gets none. */
  lemma RefusalBacktracksOnce(data: map<Id, CallbackData>, user: seq<Id>, periph: seq<Id>, lock: int,
                              answer: Answer, state: StateSet, x: Id)
    requires InData(data, user) && InData(data, periph)
    requires Distinct(user) && Distinct(periph) && Disjoint(user, periph)
    requires !Locked(lock, state, CheckReady)
    requires CommonCb(data, user, periph, lock, answer, state, CheckReady).result != Success
    ensures var o := CommonCb(data, user, periph, lock, answer, state, CheckReady);
            var before := VisitedBefore(data, user, periph, answer, state);
            multiset(o.calls)[Call(x, state, CheckFail)]
            == (if x in before && Eligible(data[x], state, CheckFail) then 1 else 0)
  {
    var c := Call(x, state, CheckFail);
    var k1 := FirstRefusal(data, user, answer, state, CheckReady);
    RefusedSomewhere(data, user, periph, lock, answer, state);
    if k1 < |user| {
      assert VisitedBefore(data, user, periph, answer, state) == user[..k1];
      RefusedInUserCalls(data, user, periph, lock, answer, state);
      RefusedInUser(data, user, k1, state, c);
    } else {
      var k2 := FirstRefusal(data, periph, answer, state, CheckReady);
      assert VisitedBefore(data, user, periph, answer, state) == user + periph[..k2];
      RefusedInPeriphCalls(data, user, periph, lock, answer, state);
      RefusedInPeriph(data, user, periph, k2, state, c);
    }
  }

  /** The refuser itself is not backtracked. */
  lemma RefuserNotBacktracked(data: map<Id, CallbackData>, user: seq<Id>, periph: seq<Id>,
                              answer: Answer, state: StateSet)
    requires InData(data, user) && InData(data, periph)
    requires Distinct(user) && Distinct(periph) && Disjoint(user, periph)
    requires CommonCb(data, user, periph, 0, answer, state, CheckReady).result != Success
    ensures var o := CommonCb(data, user, periph, 0, answer, state, CheckReady);
            multiset(o.calls)[Call(Refuser(data, user, periph, answer, state), state, CheckFail)] == 0
  {
    var x := Refuser(data, user, periph, answer, state);
    RefusalBacktracksOnce(data, user, periph, 0, answer, state, x);
    var k1 := FirstRefusal(data, user, answer, state, CheckReady);
    if k1 == |user| {
      var k2 := FirstRefusal(data, periph, answer, state, CheckReady);
      assert x == periph[k2] && x !in user;
      assert x !in periph[..k2];
    }
  }

  /** cyhal_syspm_register_callback and _cyhal_syspm_register_peripheral_callback:
      an entry whose `next` is not NULL counts as registered and is left
      alone; otherwise it is pushed onto the head of the list. */
  function Push(next: map<Id, Link>, head: Link, id: Id): (map<Id, Link>, Link)
    requires id in next
  {
    if next[id] != Null then (next, head) else (next[id := head], Node(id))
  }

  /** Registering twice is registering once. */
  lemma PushIdempotent(next: map<Id, Link>, head: Link, id: Id)
    requires id in next && head != Null
    ensures var (n, h) := Push(next, head, id); id in n && Push(n, h, id) == (n, h)
  {
  }

  /** Pushing an unregistered entry makes it the first of the list and keeps
      every other list it is not part of. */
  lemma PushChain(next: map<Id, Link>, head: Link, l: seq<Id>, other: Link, m: seq<Id>, id: Id)
    requires Chain(next, head, l) && Chain(next, other, m)
    requires id in next && next[id] == Null
    ensures var (n, h) := Push(next, head, id);
            Chain(n, h, [id] + l) && Chain(n, other, m) && id !in l && id !in m
  {
    assert forall i :: 0 <= i < |l| ==> l[i] != id;
    assert forall i :: 0 <= i < |m| ==> m[i] != id;
    var n := next[id := head];
    var l' := [id] + l;
    forall i | 0 <= i < |l'|
      ensures l'[i] in n && n[l'[i]] == LinkAt(l', i + 1)
    {
      if i > 0 {
        assert l'[i] == l[i - 1];
      }
    }
  }

  /** The list without the first occurrence of x. */
  function RemoveFirst(l: seq<Id>, x: Id): (r: seq<Id>)
  {
    if |l| == 0 then []
    else if l[0] == x then l[1..]
    else [l[0]] + RemoveFirst(l[1..], x)
  }

  /** The position of the first occurrence of x. */
  function IndexOf(l: seq<Id>, x: Id): (k: nat)
    requires x in l
    ensures k < |l| && l[k] == x && x !in l[..k]
  {
    if l[0] == x then 0 else 1 + IndexOf(l[1..], x)
  }

  /** Removing keeps every other entry in its order, and an absent entry
      leaves the list as it was. */
  lemma {:induction false} RemoveFirstSplices(l: seq<Id>, x: Id)
    ensures x !in l ==> RemoveFirst(l, x) == l
    ensures x in l ==> RemoveFirst(l, x) == l[..IndexOf(l, x)] + l[IndexOf(l, x) + 1..]
    decreases |l|
  {
    if |l| > 0 && l[0] != x {
      RemoveFirstSplices(l[1..], x);
      if x in l {
        var k := IndexOf(l[1..], x);
        assert l[..k + 1] == [l[0]] + l[1..][..k];
        assert l[k + 2..] == l[1..][k + 1..];
      } else {
        assert l == [l[0]] + l[1..];
      }
    }
  }

  /** _cyhal_syspm_remove_callback_from_list: the pointer that led to the
      entry takes the entry's `next`, which becomes NULL. */
  function Unlink(next: map<Id, Link>, head: Link, l: seq<Id>, x: Id): (map<Id, Link>, Link)
    requires Chain(next, head, l)
  {
    if x !in l then (next, head)
    else
      var k := IndexOf(l, x);
      if k == 0 then (next[x := Null], next[x])
      else (next[l[k - 1] := next[x]][x := Null], head)
  }

  /** Unlinking the entry at position k of a list without repeats leaves
      the list without that position. */
  lemma UnlinkList(next: map<Id, Link>, head: Link, l: seq<Id>, k: nat)
    requires Chain(next, head, l) && Distinct(l) && k < |l|
    ensures IndexOf(l, l[k]) == k
    ensures var (n, h) := Unlink(next, head, l, l[k]); Chain(n, h, l[..k] + l[k + 1..])
  {
    var x := l[k];
    assert IndexOf(l, x) == k by {
      var i := IndexOf(l, x);
      assert l[i] == l[k];
    }
    var (n, h) := Unlink(next, head, l, x);
    var r := l[..k] + l[k + 1..];
    assert h == LinkAt(r, 0);
    forall i | 0 <= i < |r|
      ensures r[i] in n && n[r[i]] == LinkAt(r, i + 1)
    {
      if i < k {
        assert r[i] == l[i] && l[i] != x;
        if i + 1 < k {
          assert r[i + 1] == l[i + 1];
        }
      } else {
        assert r[i] == l[i + 1] && l[i + 1] != x;
        assert k > 0 ==> l[i + 1] != l[k - 1];
        if i + 1 < |r| {
          assert r[i + 1] == l[i + 2];
        }
      }
    }
  }

  /** Unlinking an entry of a list without repeats leaves exactly the list
      without it, NULLs the entry's `next`, changes no other `next` than that
      of the entry before it, and keeps every other list that shares no
      entry with it. */
  lemma UnlinkChain(next: map<Id, Link>, head: Link, l: seq<Id>, other: Link, m: seq<Id>, x: Id)
    requires Chain(next, head, l) && Chain(next, other, m) && Distinct(l) && Disjoint(l, m)
    ensures var (n, h) := Unlink(next, head, l, x);
            Chain(n, h, RemoveFirst(l, x)) && Chain(n, other, m) && n.Keys == next.Keys &&
            (x in l ==> n[x] == Null) &&
            (forall y :: y in next && y != x && !(x in l && 0 < IndexOf(l, x) && y == l[IndexOf(l, x) - 1])
                         ==> y in n && n[y] == next[y])
  {
    RemoveFirstSplices(l, x);
    if x in l {
      var k := IndexOf(l, x);
      UnlinkList(next, head, l, k);
      var (n, h) := Unlink(next, head, l, x);
      forall j | 0 <= j < |m| ensures m[j] in n && n[m[j]] == next[m[j]] {
        assert l[k] in l && (k > 0 ==> l[k - 1] in l);
      }
      ChainFrame(next, n, other, m);
    }
  }

  /** Pushing an entry that is not on a list keeps the list without repeats. */
  lemma DistinctPush(l: seq<Id>, x: Id)
    requires Distinct(l) && x !in l
    ensures Distinct([x] + l)
  {
    var l' := [x] + l;
    forall i, j | 0 <= i < j < |l'| ensures l'[i] != l'[j] {
      assert l'[j] == l[j - 1];
      if i > 0 {
        assert l'[i] == l[i - 1];
      }
    }
  }

  /** Removing keeps a list without repeats and adds no entry. */
  lemma {:induction false} RemoveFirstKeeps(l: seq<Id>, x: Id)
    requires Distinct(l)
    ensures Distinct(RemoveFirst(l, x))
    ensures forall y :: y in RemoveFirst(l, x) ==> y in l
    decreases |l|
  {
    if |l| > 0 {
      var t := l[1..];
      assert Distinct(t);
      RemoveFirstKeeps(t, x);
      if l[0] != x {
        assert l[0] !in t;
        DistinctPush(RemoveFirst(t, x), l[0]);
      }
    }
  }

  /** The first occurrence is the one no earlier position matches. */
  lemma IndexOfUnique(l: seq<Id>, x: Id, i: nat)
    requires i < |l| && l[i] == x
    requires forall j :: 0 <= j < i ==> l[j] != x
    ensures IndexOf(l, x) == i
  {
    var k := IndexOf(l, x);
    assert l[k] == x;
  }

  /** A list stays a list under any change to the `next` pointers of
      entries outside it. */
  lemma ChainFrame(next: map<Id, Link>, n: map<Id, Link>, head: Link, l: seq<Id>)
    requires Chain(next, head, l)
    requires forall i :: 0 <= i < |l| ==> l[i] in n && n[l[i]] == next[l[i]]
    ensures Chain(n, head, l)
  {
  }
}
