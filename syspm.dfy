/** The system power-management driver of source/cyhal_syspm.c: the two
    callback lists, their dispatch around a sleep transition, the deep-sleep
    lock, the GPIO wake-up sources and the supply-voltage table.  The ROM
    routines it calls (btss_system_sleep*) are inputs: their boolean answers
    are parameters and the requests made to them are recorded. */
module Syspm {
  import opened CTypes
  import opened Results
  import opened Options
  import opened SyspmChain
  import Pins

  /** BTSS_SYSTEM_PMU_SLEEP_MODE_t.  The ROM headers define further modes,
      which the driver treats alike: OtherMode stands for those. */
  datatype SleepMode = Pds | Epds | NotAllowed | OtherMode(code: int)

  /** _cyhal_syspm_convert_pdltohal_pm_state; `epds` is the build option
      CYHAL_SYSPM_EPDS_ENABLED. */
  function ConvertState(s: SleepMode, epds: bool): (st: StateSet)
    ensures st == {CpuDeepSleep} || st == {SystemHibernate}
    ensures st == {SystemHibernate} <==> s == Epds && epds
  {
    if s == Epds && epds then {SystemHibernate} else {CpuDeepSleep}
  }

  /** _cyhal_syspm_convert_pdltohal_pm_mode: the callback mode and whether
      the callbacks are to run at all. */
  function ConvertMode(s: SleepMode, epds: bool): (r: (PmMode, bool))
    ensures r.1 <==> s == Pds || s == NotAllowed || (s == Epds && epds)
    ensures r.0 == CheckFail <==> s == NotAllowed
    ensures r.0 == CheckFail || r.0 == CheckReady
  {
    match s
    case Pds => (CheckReady, true)
    case Epds => if epds then (CheckReady, true) else (CheckReady, false)
    case NotAllowed => (CheckFail, true)
    case OtherMode(_) => (CheckReady, false)
  }

  /** _cyhal_syspm_pre_sleep_cback over the lists `user` and `periph`: the
      sleep mode it answers the ROM and the callback calls it makes. */
  function PreSleep(data: map<Id, CallbackData>, user: seq<Id>, periph: seq<Id>, lock: int,
                    answer: Answer, epds: bool, s: SleepMode): (SleepMode, seq<Call>)
    requires InData(data, user) && InData(data, periph)
  {
    var (mode, proceed) := ConvertMode(s, epds);
    if !proceed then (s, [])
    else
      var st := ConvertState(s, epds);
      var o := CommonCb(data, user, periph, lock, answer, st, mode);
      if o.result == Success && mode == CheckReady then
        var o2 := CommonCb(data, user, periph, lock, answer, st, BeforeTransition);
        (if o2.result == Success then s else NotAllowed, o.calls + o2.calls)
      else (if o.result == Success then s else NotAllowed, o.calls)
  }

  /** The ROM's sleep mode comes back unchanged if the CHECK_READY pass
      accepts and as NOT_ALLOWED if it refuses; an accepted pass is followed
      by BEFORE_TRANSITION on every eligible entry, user list first.  A mode
      that does not proceed comes back unchanged without any callback. */
  lemma PreSleepAnswer(data: map<Id, CallbackData>, user: seq<Id>, periph: seq<Id>, lock: int,
                       answer: Answer, epds: bool, s: SleepMode)
    requires InData(data, user) && InData(data, periph)
    ensures var (r, calls) := PreSleep(data, user, periph, lock, answer, epds, s);
            var (mode, proceed) := ConvertMode(s, epds);
            var st := ConvertState(s, epds);
            var o := CommonCb(data, user, periph, lock, answer, st, mode);
            (!proceed ==> r == s && calls == []) &&
            (proceed ==> r == (if o.result == Success then s else NotAllowed)) &&
            (proceed && mode == CheckReady && o.result == Success ==>
               calls == o.calls + Eligibles(data, user, st, BeforeTransition)
                        + Eligibles(data, periph, st, BeforeTransition))
  {
    var (mode, proceed) := ConvertMode(s, epds);
    if proceed {
      var st := ConvertState(s, epds);
      var o := CommonCb(data, user, periph, lock, answer, st, mode);
      CommonCbOtherModes(data, user, periph, lock, answer, st, BeforeTransition);
      var o2 := CommonCb(data, user, periph, lock, answer, st, BeforeTransition);
      if o.result == Success && mode == CheckReady {
        assert PreSleep(data, user, periph, lock, answer, epds, s) == (s, o.calls + o2.calls);
      } else {
        assert PreSleep(data, user, periph, lock, answer, epds, s) == (if o.result == Success then s else NotAllowed, o.calls);
      }
    }
  }

  /** With the deep-sleep lock held, a PDS request is answered NOT_ALLOWED
      and no callback runs. */
  lemma PreSleepLocked(data: map<Id, CallbackData>, user: seq<Id>, periph: seq<Id>, lock: int,
                       answer: Answer, epds: bool)
    requires InData(data, user) && InData(data, periph) && lock != 0
    ensures PreSleep(data, user, periph, lock, answer, epds, Pds) == (NotAllowed, [])
  {
    CommonCbLocked(data, user, periph, lock, answer, {CpuDeepSleep});
  }

  /** _cyhal_syspm_post_sleep_cback: AFTER_TRANSITION on every eligible
      entry, the peripheral list first. */
  lemma PostSleepOrder(data: map<Id, CallbackData>, user: seq<Id>, periph: seq<Id>, lock: int,
                       answer: Answer, epds: bool, s: SleepMode)
    requires InData(data, user) && InData(data, periph)
    ensures var st := ConvertState(s, epds);
            var o := CommonCb(data, user, periph, lock, answer, st, AfterTransition);
            o.result == Success &&
            o.calls == Eligibles(data, periph, st, AfterTransition) + Eligibles(data, user, st, AfterTransition)
  {
    CommonCbOtherModes(data, user, periph, lock, answer, ConvertState(s, epds), AfterTransition);
  }

  /** cyhal_syspm_lock_deepsleep on the counter: saturates at USHRT_MAX. */
  function LockStep(n: uint16): uint16
  {
    if n < USHRT_MAX then n + 1 else n
  }

  /** cyhal_syspm_unlock_deepsleep on the counter: stops at 0. */
  function UnlockStep(n: uint16): uint16
  {
    if n > 0 then n - 1 else 0
  }

  /** `a` locks in a row. */
  function Locks(n: uint16, a: nat): uint16
    decreases a
  {
    if a == 0 then n else Locks(LockStep(n), a - 1)
  }

  /** `b` unlocks in a row. */
  function Unlocks(n: uint16, b: nat): uint16
    decreases b
  {
    if b == 0 then n else Unlocks(UnlockStep(n), b - 1)
  }

  /** Repeated locks add up to USHRT_MAX and no further. */
  lemma {:induction false} LocksSaturate(n: uint16, a: nat)
    ensures Locks(n, a) == if n + a <= USHRT_MAX then n + a else USHRT_MAX
    decreases a
  {
    if a > 0 {
      LocksSaturate(LockStep(n), a - 1);
    }
  }

  /** Repeated unlocks count down to 0 and no further. */
  lemma {:induction false} UnlocksStopAtZero(n: uint16, b: nat)
    ensures Unlocks(n, b) == if n >= b then n - b else 0
    decreases b
  {
    if b > 0 {
      UnlocksStopAtZero(UnlockStep(n), b - 1);
    }
  }

  /** Starting unlocked, `a` locks (at most USHRT_MAX) then `b` unlocks leave
      deep sleep locked exactly when fewer unlocks than locks were made. */
  lemma LocksBalance(a: nat, b: nat)
    requires a <= USHRT_MAX
    ensures Unlocks(Locks(0, a), b) != 0 <==> b < a
  {
    LocksSaturate(0, a);
    UnlocksStopAtZero(a, b);
  }

  /** The number of entries of _cyhal_gpio_map_wakeup_src. */
  const WakeCount := 36

  /** The pin of entry i of _cyhal_gpio_map_wakeup_src.  The entry's ROM
      wake source (BTSS_SYSTEM_PMU_WAKE_SRC_*, whose values the ROM headers
      define) is known here by the position i. */
  function WakePin(i: nat): int
    requires i < WakeCount
  {
    match i
    case 0 => Pins.BtGpio0
    case 1 => Pins.BtGpio2
    case 2 => Pins.BtGpio3
    case 3 => Pins.BtGpio4
    case 4 => Pins.BtGpio5
    case 5 => Pins.BtGpio6
    case 6 => Pins.BtGpio7
    case 7 => Pins.BtGpio8
    case 8 => Pins.BtGpio9
    case 9 => Pins.BtGpio10
    case 10 => Pins.BtGpio11
    case 11 => Pins.BtGpio16
    case 12 => Pins.BtGpio17
    case 13 => Pins.BtHostWake
    case 14 => Pins.BtUartCtsN
    case 15 => Pins.BtUartRtsN
    case 16 => Pins.BtUartRxd
    case 17 => Pins.DmicCk
    case 18 => Pins.DmicDq
    case 19 => Pins.Tdm1Di
    case 20 => Pins.Tdm1Do
    case 21 => Pins.Tdm1Mck
    case 22 => Pins.Tdm1Sck
    case 23 => Pins.Tdm1Ws
    case 24 => Pins.Tdm2Sck
    case 25 => Pins.Tdm2Di
    case 26 => Pins.Tdm2Mck
    case 27 => Pins.Tdm2Do
    case 28 => Pins.Tdm2Ws
    case 29 => Pins.LhlGpio2
    case 30 => Pins.LhlGpio3
    case 31 => Pins.LhlGpio4
    case 32 => Pins.LhlGpio5
    case 33 => Pins.LhlGpio6
    case 34 => Pins.LhlGpio8
    case _ => Pins.LhlGpio9
  }

  /** The entry of the wake-up table for a pin, by an independent reading of
      the table: the pins the table lacks (BT_GPIO_12 to 15, BT_UART_TXD,
      LHL_GPIO_7 and the non-BTSS pins) have none. */
  function WakeSlot(pin: int): (r: Option<nat>)
    ensures r.Some? ==> r.value < WakeCount && WakePin(r.value) == pin
  {
    if Pins.BtGpio0 <= pin <= Pins.BtGpio11 then Some(pin)
    else if pin == Pins.BtGpio16 || pin == Pins.BtGpio17 then Some(pin - 4)
    else if Pins.BtHostWake <= pin <= Pins.BtUartRxd then Some(pin - 4)
    else if Pins.DmicCk <= pin <= Pins.DmicDq then Some(pin - 5)
    else if Pins.Tdm1Di <= pin <= Pins.Tdm2Ws then Some(pin - 13)
    else if Pins.LhlGpio2 <= pin <= Pins.LhlGpio6 then Some(pin + 5)
    else if pin == Pins.LhlGpio8 || pin == Pins.LhlGpio9 then Some(pin + 4)
    else None
  }

  /** Every entry of the table is the one WakeSlot finds for its pin: no pin
      appears twice, so the first match is the only one. */
  lemma WakeSlotComplete(i: nat)
    requires i < WakeCount
    ensures WakeSlot(WakePin(i)) == Some(i)
  {
  }

  /** A request to the ROM's wake-source routines. */
  datatype WakeCall = EnableWake(src: nat, polarity: bool) | DisableWake(src: nat)

  /** The deep-sleep lock counter after `a` locks from 0 can always be
      released by as many unlocks. */
  lemma LockedUntilReleased(a: nat)
    requires 0 < a <= USHRT_MAX
    ensures Locks(0, a) != 0 && Unlocks(Locks(0, a), a) == 0
  {
    LocksBalance(a, a);
    LocksBalance(a, 0);
  }

  class PowerManager {
    /** The callback structures of the program, apart from their `next`
        pointers; the driver only reads them. */
    const data: map<Id, CallbackData>
    /** Their `next` pointers. */
    var next: map<Id, Link>
    /** _cyhal_syspm_callback_ptr and _cyhal_syspm_peripheral_callback_ptr */
    var userHead: Link
    var periphHead: Link
    /** The entries a walk from each head visits. */
    ghost var userList: seq<Id>
    ghost var periphList: seq<Id>
    /** _cyhal_deep_sleep_lock */
    var lock: uint16
    /** The mode last passed to btss_system_sleepAllowMode, if any. */
    var allowedSleep: Option<SleepMode>
    /** _cyhal_syspm_supply_voltages, CYHAL_VOLTAGE_SUPPLY_MAX + 1 entries. */
    const voltages: array<uint32>
    /** The build option CYHAL_SYSPM_EPDS_ENABLED. */
    const epds: bool
    /** CY_CFG_PMU_SLEEP_MODE, or PDS when it is not configured. */
    const configuredMode: SleepMode

    /** Both heads start lists that end in CYHAL_SYSPM_END_OF_LIST, visit
        no entry twice and share no entry. */
    ghost predicate Valid()
      reads this
    {
      next.Keys == data.Keys &&
      InData(data, userList) && InData(data, periphList) &&
      Chain(next, userHead, userList) && Chain(next, periphHead, periphList) &&
      Distinct(userList) && Distinct(periphList) && Disjoint(userList, periphList)
    }

    /** The state at start-up: both lists empty, the lock released and the
        voltages zero.  `next0` holds the `next` pointers the structures
        start with. */
    constructor (data: map<Id, CallbackData>, next0: map<Id, Link>, supplyMax: nat, epds: bool, configuredMode: SleepMode)
      requires next0.Keys == data.Keys
      ensures Valid()
      ensures this.data == data && next == next0 && userList == [] && periphList == []
      ensures lock == 0 && allowedSleep == None
      ensures this.epds == epds && this.configuredMode == configuredMode
      ensures fresh(voltages) && voltages.Length == supplyMax + 1
      ensures forall i :: 0 <= i < voltages.Length ==> voltages[i] == 0
    {
      this.data := data;
      next := next0;
      userHead := EndOfList;
      periphHead := EndOfList;
      userList := [];
      periphList := [];
      lock := 0;
      allowedSleep := None;
      voltages := new uint32[supplyMax + 1](_ => 0);
      this.epds := epds;
      this.configuredMode := configuredMode;
    }

    /** The lists are as they were. */
    twostate predicate ListsKept()
      reads this
    {
      next == old(next) && userHead == old(userHead) && periphHead == old(periphHead) &&
      userList == old(userList) && periphList == old(periphList)
    }

    /** The lock and the sleep-mode request are as they were. */
    twostate predicate PowerKept()
      reads this
    {
      lock == old(lock) && allowedSleep == old(allowedSleep)
    }

    /** _cyhal_syspm_call_all_pm_callbacks on the list that starts at
        `entry`: it stops at the first refusing entry (CHECK_READY only) and
        returns it, or runs to the end.  `*allow` is true on entry at both
        of the driver's calls, so it comes back false exactly on a refusal. */
    method CallAllPmCallbacks(entry: Link, ghost l: seq<Id>, state: StateSet, mode: PmMode, answer: Answer)
      returns (current: Link, allow: bool, calls: seq<Call>)
      requires Chain(next, entry, l) && InData(data, l)
      ensures var k := FirstRefusal(data, l, answer, state, mode);
              current == LinkAt(l, k) && (allow <==> k == |l|) &&
              calls == ReadyCalls(data, l, answer, state, mode)
    {
      current := entry;
      allow := true;
      calls := [];
      ghost var i := 0;
      while current != EndOfList
        invariant 0 <= i <= |l| && current == LinkAt(l, i)
        invariant allow && calls == Eligibles(data, l[..i], state, mode)
        invariant forall j :: 0 <= j < i ==> !Refuses(data[l[j]], answer, l[j], state, mode)
        decreases |l| - i
      {
        var id := current.id;
        var d := data[id];
        EligiblesSnoc(data, l, i, state, mode);
        if d.hasCallback && state <= d.states && mode !in d.ignoreModes {
          allow := answer(id, state, mode) || mode != CheckReady;
          calls := calls + [Call(id, state, mode)];
          if !allow {
            ReadyCallsAt(data, l, answer, state, mode, i);
            return;
          }
        }
        current := next[id];
        i := i + 1;
      }
      assert l[..i] == l;
      ReadyCallsAt(data, l, answer, state, mode, i);
    }

    /** _cyhal_syspm_backtrack_all_pm_callbacks: CHECK_FAIL on the entries
        from `start` up to, not including, `end` that do not ignore it. */
    method BacktrackAllPmCallbacks(start: Link, end: Link, ghost l: seq<Id>, ghost k: nat, state: StateSet)
      returns (calls: seq<Call>)
      requires Chain(next, start, l) && InData(data, l) && Distinct(l)
      requires k <= |l| && end == LinkAt(l, k)
      ensures calls == BackCalls(data, l, k, state)
    {
      var cur := start;
      calls := [];
      ghost var i := 0;
      while cur != end
        invariant 0 <= i <= k && cur == LinkAt(l, i)
        invariant calls == Eligibles(data, l[..i], state, CheckFail)
        decreases k - i
      {
        if i == k {
          assert false;
        }
        var id := cur.id;
        var d := data[id];
        EligiblesSnoc(data, l, i, state, CheckFail);
        if d.hasCallback && state <= d.states && CheckFail !in d.ignoreModes {
          calls := calls + [Call(id, state, CheckFail)];
        }
        cur := next[id];
        i := i + 1;
      }
      LinkAtInjective(l, i, k);
    }

    /** The dispatch part of _cyhal_syspm_common_cb on the lists `first` and
        `second`, in that order. */
    method DispatchLists(first: Link, second: Link, ghost l1: seq<Id>, ghost l2: seq<Id>,
                         state: StateSet, mode: PmMode, answer: Answer) returns (r: Rslt, calls: seq<Call>)
      requires Chain(next, first, l1) && Chain(next, second, l2)
      requires InData(data, l1) && InData(data, l2) && Distinct(l1) && Distinct(l2)
      ensures Outcome(r, calls) == Dispatch(data, l1, l2, answer, state, mode)
    {
      var firstCurrent, allow, calls1 := CallAllPmCallbacks(first, l1, state, mode, answer);
      ghost var k1 := FirstRefusal(data, l1, answer, state, mode);
      // When the first list refuses, the second is not walked and its
      // backtracking runs from its head to its head.
      var secondCurrent := second;
      ghost var k2 := 0;
      var calls2: seq<Call> := [];
      if allow {
        secondCurrent, allow, calls2 := CallAllPmCallbacks(second, l2, state, mode, answer);
        k2 := FirstRefusal(data, l2, answer, state, mode);
      }
      calls := calls1 + calls2;
      if !allow && mode == CheckReady {
        var back2 := BacktrackAllPmCallbacks(second, secondCurrent, l2, k2, state);
        var back1 := BacktrackAllPmCallbacks(first, firstCurrent, l1, k1, state);
        calls := calls + back2 + back1;
      }
      r := if allow then Success else SyspmPmPending;
      assert allow <==> k1 == |l1| && k2 == |l2|;
    }

    /** _cyhal_syspm_common_cb */
    method CommonCb(state: StateSet, mode: PmMode, answer: Answer) returns (r: Rslt, calls: seq<Call>)
      requires Valid()
      ensures Outcome(r, calls) == SyspmChain.CommonCb(data, userList, periphList, lock, answer, state, mode)
    {
      if state <= DeepStates && mode == CheckReady && lock != 0 {
        return SyspmPmPending, [];
      }
      if mode == CheckFail || mode == AfterTransition {
        r, calls := DispatchLists(periphHead, userHead, periphList, userList, state, mode, answer);
      } else {
        r, calls := DispatchLists(userHead, periphHead, userList, periphList, state, mode, answer);
      }
    }

    /** cyhal_syspm_register_callback */
    method RegisterCallback(id: Id)
      requires Valid() && id in data
      modifies this
      ensures Valid() && PowerKept()
      ensures (next, userHead) == Push(old(next), old(userHead), id)
      ensures userList == (if old(next)[id] == Null then [id] + old(userList) else old(userList))
      ensures periphHead == old(periphHead) && periphList == old(periphList)
    {
      if next[id] == Null {
        PushChain(next, userHead, userList, periphHead, periphList, id);
        DistinctPush(userList, id);
        next := next[id := userHead];
        userHead := Node(id);
        userList := [id] + userList;
      }
    }

    /** _cyhal_syspm_register_peripheral_callback */
    method RegisterPeripheralCallback(id: Id)
      requires Valid() && id in data
      modifies this
      ensures Valid() && PowerKept()
      ensures (next, periphHead) == Push(old(next), old(periphHead), id)
      ensures periphList == (if old(next)[id] == Null then [id] + old(periphList) else old(periphList))
      ensures userHead == old(userHead) && userList == old(userList)
    {
      if next[id] == Null {
        PushChain(next, periphHead, periphList, userHead, userList, id);
        DistinctPush(periphList, id);
        next := next[id := periphHead];
        periphHead := Node(id);
        periphList := [id] + periphList;
      }
    }

    /** _cyhal_syspm_remove_callback_from_list on the list that starts at
        `head`: the pointer that led to `remove` takes its `next`, and its
        `next` becomes NULL.  The C passes the address of the head
        variable; here the new head comes back instead. */
    method RemoveCallbackFromList(head: Link, ghost l: seq<Id>, remove: Id) returns (newHead: Link)
      requires Chain(next, head, l) && Distinct(l)
      modifies this
      ensures (next, newHead) == Unlink(old(next), head, l, remove)
      ensures userHead == old(userHead) && periphHead == old(periphHead)
      ensures userList == old(userList) && periphList == old(periphList) && PowerKept()
    {
      var cur := head;
      var prev: Option<Id> := None;
      newHead := head;
      ghost var i := 0;
      while cur != EndOfList
        invariant 0 <= i <= |l| && cur == LinkAt(l, i)
        invariant prev == (if i == 0 then None else Some(l[i - 1]))
        invariant forall j :: 0 <= j < i ==> l[j] != remove
        invariant next == old(next) && newHead == head
        decreases |l| - i
      {
        if cur == Node(remove) {
          IndexOfUnique(l, remove, i);
          var after := next[remove];
          if prev.None? {
            newHead := after;
          } else {
            next := next[prev.value := after];
          }
          next := next[remove := Null];
          return;
        }
        prev := Some(cur.id);
        cur := next[cur.id];
        i := i + 1;
      }
    }

    /** cyhal_syspm_unregister_callback */
    method UnregisterCallback(id: Id)
      requires Valid()
      modifies this
      ensures Valid() && PowerKept()
      ensures (next, userHead) == Unlink(old(next), old(userHead), old(userList), id)
      ensures userList == RemoveFirst(old(userList), id)
      ensures periphHead == old(periphHead) && periphList == old(periphList)
    {
      UnlinkChain(next, userHead, userList, periphHead, periphList, id);
      RemoveFirstKeeps(userList, id);
      userHead := RemoveCallbackFromList(userHead, userList, id);
      userList := RemoveFirst(userList, id);
    }

    /** _cyhal_syspm_unregister_peripheral_callback */
    method UnregisterPeripheralCallback(id: Id)
      requires Valid()
      modifies this
      ensures Valid() && PowerKept()
      ensures (next, periphHead) == Unlink(old(next), old(periphHead), old(periphList), id)
      ensures periphList == RemoveFirst(old(periphList), id)
      ensures userHead == old(userHead) && userList == old(userList)
    {
      assert Disjoint(periphList, userList);
      UnlinkChain(next, periphHead, periphList, userHead, userList, id);
      RemoveFirstKeeps(periphList, id);
      periphHead := RemoveCallbackFromList(periphHead, periphList, id);
      periphList := RemoveFirst(periphList, id);
    }

    /** _cyhal_syspm_pre_sleep_cback, which the ROM calls before sleeping. */
    method PreSleepCback(s: SleepMode, answer: Answer) returns (r: SleepMode, calls: seq<Call>)
      requires Valid()
      ensures (r, calls) == PreSleep(data, userList, periphList, lock, answer, epds, s)
    {
      var (mode, proceed) := ConvertMode(s, epds);
      r := s;
      calls := [];
      if proceed {
        var st := ConvertState(s, epds);
        var result, c := CommonCb(st, mode, answer);
        calls := c;
        if result == Success && mode == CheckReady {
          var c2;
          result, c2 := CommonCb(st, BeforeTransition, answer);
          calls := calls + c2;
        }
        r := if result == Success then s else NotAllowed;
      }
    }

    /** _cyhal_syspm_post_sleep_cback, which the ROM calls after waking. */
    method PostSleepCback(s: SleepMode, answer: Answer) returns (calls: seq<Call>)
      requires Valid()
      ensures calls == Eligibles(data, periphList, ConvertState(s, epds), AfterTransition)
                       + Eligibles(data, userList, ConvertState(s, epds), AfterTransition)
    {
      PostSleepOrder(data, userList, periphList, lock, answer, epds, s);
      var _, c := CommonCb(ConvertState(s, epds), AfterTransition, answer);
      calls := c;
    }

    /** cyhal_syspm_lock_deepsleep */
    method LockDeepSleep()
      requires Valid()
      modifies this
      ensures Valid() && ListsKept()
      ensures lock == LockStep(old(lock)) && lock != 0
      ensures allowedSleep == if old(lock) < USHRT_MAX then Some(NotAllowed) else old(allowedSleep)
    {
      if lock < USHRT_MAX {
        lock := lock + 1;
        allowedSleep := Some(NotAllowed);
      }
    }

    /** The mode unlocking allows again: EPDS in an EPDS build, else the
        configured mode. */
    function IdleMode(): SleepMode
      reads this
    {
      if epds then Epds else configuredMode
    }

    /** cyhal_syspm_unlock_deepsleep */
    method UnlockDeepSleep()
      requires Valid()
      modifies this
      ensures Valid() && ListsKept()
      ensures lock == UnlockStep(old(lock))
      ensures allowedSleep == if lock == 0 then Some(IdleMode()) else old(allowedSleep)
    {
      if lock > 0 {
        lock := lock - 1;
      }
      if lock == 0 {
        allowedSleep := Some(IdleMode());
      }
    }

    /** cyhal_syspm_init: the ROM's answers to btss_system_sleepInit,
        btss_system_sleepAllowMode and btss_system_sleepEnable are the
        parameters; a step runs only after the ones before it succeeded. */
    method Init(initOk: bool, allowOk: bool, enableOk: bool) returns (r: Rslt)
      requires Valid()
      modifies this
      ensures Valid() && ListsKept() && lock == old(lock)
      ensures r == Success <==> initOk && allowOk && enableOk
      ensures !initOk ==> r == SyspmCbRegisterError && allowedSleep == old(allowedSleep)
      ensures initOk && !(allowOk && enableOk) ==> r == SyspmInitError
      ensures initOk ==> allowedSleep == Some(configuredMode)
    {
      r := if initOk then Success else SyspmCbRegisterError;
      if r == Success {
        allowedSleep := Some(configuredMode);
        r := if allowOk then Success else SyspmInitError;
      }
      if r == Success {
        r := if enableOk then Success else SyspmInitError;
      }
    }

    /** _cyhal_syspm_set_gpio_wakeup_source: the first table entry for the
        pin is enabled or disabled in the ROM, whose answer is `pdlOk`; a pin
        without an entry is a bad argument. */
    method SetGpioWakeupSource(pin: int, polarity: bool, enable: bool, pdlOk: bool)
      returns (r: Rslt, call: Option<WakeCall>)
      ensures call == match WakeSlot(pin)
                      case None => None
                      case Some(i) => Some(if enable then EnableWake(i, polarity) else DisableWake(i))
      ensures r == Success <==> WakeSlot(pin).Some? && pdlOk
      ensures r != Success ==> r == SyspmBadArgument
    {
      var pdlStatus := false;
      call := None;
      var pinIdx := 0;
      while pinIdx < WakeCount
        invariant 0 <= pinIdx <= WakeCount
        invariant forall j :: 0 <= j < pinIdx ==> WakePin(j) != pin
      {
        if WakePin(pinIdx) == pin {
          WakeSlotComplete(pinIdx);
          call := Some(if enable then EnableWake(pinIdx, polarity) else DisableWake(pinIdx));
          pdlStatus := pdlOk;
          break;
        }
        pinIdx := pinIdx + 1;
      }
      r := if pdlStatus then Success else SyspmBadArgument;
    }

    /** cyhal_syspm_set_supply_voltage */
    method SetSupplyVoltage(supply: nat, mvolts: uint32)
      requires supply < voltages.Length
      modifies voltages
      ensures voltages[..] == old(voltages[..])[supply := mvolts]
    {
      voltages[supply] := mvolts;
    }

    /** cyhal_syspm_get_supply_voltage */
    method GetSupplyVoltage(supply: nat) returns (mvolts: uint32)
      requires supply < voltages.Length
      ensures mvolts == voltages[supply]
    {
      mvolts := voltages[supply];
    }
  }

  /** A voltage reads back as set, and setting one supply leaves the others. */
  method SupplyVoltageRoundTrip(pm: PowerManager, supply: nat, other: nat, mvolts: uint32) returns (v: uint32, w: uint32)
    requires supply < pm.voltages.Length && other < pm.voltages.Length && other != supply
    modifies pm.voltages
    ensures v == mvolts && w == old(pm.voltages[other])
  {
    pm.SetSupplyVoltage(supply, mvolts);
    v := pm.GetSupplyVoltage(supply);
    w := pm.GetSupplyVoltage(other);
  }
}
