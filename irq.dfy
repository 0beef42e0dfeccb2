/** Interrupt enable bookkeeping (source/cyhal_irq_impl.c) and the inline
    wrappers around it (include_pvt/cyhal_irq_impl.h).  The device has no
    interrupt controller API here; the driver only remembers, per known
    interrupt line, whether it was last enabled. */
module Irq {
  import opened Results

  /** _cyhal_system_irq_t: the seven interrupt numbers the status table
      knows, or any other number.  The C switch has distinct case labels, so
      Other(n) stands for a number different from all seven. */
  datatype SystemIrq =
    | Tcpwm0Int0     // tcpwm_0_interrupts_0_IRQn
    | Tcpwm0Int256   // tcpwm_0_interrupts_256_IRQn
    | Scb0Int
    | Scb1Int
    | Scb2Int
    | Tdm0Int
    | Tdm1Int
    | Other(n: int)

  /** _CYHAL_IRQ_NR */
  const IrqCount := 9

  /** The status-table slot of a known interrupt (_CYHAL_IRQ_TCPWM0 .. TDM1). */
  function Slot(irq: SystemIrq): (k: int)
    requires !irq.Other?
    ensures 0 <= k < IrqCount
  {
    match irq
    case Tcpwm0Int0 => 0
    case Tcpwm0Int256 => 1
    case Scb0Int => 2
    case Scb1Int => 3
    case Scb2Int => 4
    case Tdm0Int => 5
    case Tdm1Int => 6
  }

  /** Different known interrupts use different slots, so writing one never
      changes another. */
  lemma SlotsDistinct(a: SystemIrq, b: SystemIrq)
    requires !a.Other? && !b.Other? && a != b
    ensures Slot(a) != Slot(b)
  {
  }

  /** The interrupt lines that _cyhal_irq_free leaves alone: the TCPWM counter
      interrupts are ganged and are never tracked as disabled. */
  predicate IsGangedTcpwm(irq: SystemIrq) { irq == Tcpwm0Int0 || irq == Tcpwm0Int256 }

  /** _cyhal_irq_register: accepts everything. */
  function Register(irq: SystemIrq, priority: nat): (r: Rslt)
    ensures r == Success
  {
    Success
  }

  /** _cyhal_irq_get_priority: always 0. */
  function GetPriority(irq: SystemIrq): (p: nat)
    ensures p == 0
  {
    0
  }

  /** _cyhal_irq_get_active: always 0. */
  function GetActive(): (irq: int)
    ensures irq == 0
  {
    0
  }

  /** _cyhal_irq_status and the operations on it. */
  class IrqTable {
    var status: array<bool>

    ghost predicate Valid()
      reads this
    {
      status.Length == IrqCount
    }

    /** The remembered state of a line; false for an unknown line. */
    function Stored(irq: SystemIrq): bool
      reads this, status
      requires Valid()
    {
      if irq.Other? then false else status[Slot(irq)]
    }

    /** The zero-initialised table. */
    constructor ()
      ensures Valid() && fresh(status)
      ensures forall irq :: !Stored(irq)
    {
      status := new bool[IrqCount](_ => false);
    }

    /** _cyhal_irq_state: with write set, store `enable` in the line's slot;
        return the slot's (new) value.  An unknown line returns false and
        leaves the table as it was. */
    method State(irq: SystemIrq, enable: bool, write: bool) returns (r: bool)
      requires Valid()
      modifies status
      ensures Valid()
      ensures irq.Other? ==> !r && status[..] == old(status[..])
      ensures !irq.Other? ==> status[..] == old(status[..])[Slot(irq) := if write then enable else old(status[Slot(irq)])]
      ensures r == Stored(irq)
      ensures write && !irq.Other? ==> r == enable
      ensures !write ==> status[..] == old(status[..])
    {
      r := false;
      if !irq.Other? {
        var k := Slot(irq);
        status[k] := if write then enable else status[k];
        r := status[k];
      }
    }

    /** _cyhal_irq_enable */
    method Enable(irq: SystemIrq)
      requires Valid()
      modifies status
      ensures Valid()
      ensures !irq.Other? ==> Stored(irq)
      ensures forall other :: other != irq ==> Stored(other) == old(Stored(other))
    {
      var _ := State(irq, true, true);
      forall other | other != irq ensures Stored(other) == old(Stored(other)) {
        if !other.Other? && !irq.Other? { SlotsDistinct(irq, other); }
      }
    }

    /** _cyhal_irq_disable */
    method Disable(irq: SystemIrq)
      requires Valid()
      modifies status
      ensures Valid()
      ensures !Stored(irq)
      ensures forall other :: other != irq ==> Stored(other) == old(Stored(other))
    {
      var _ := State(irq, false, true);
      forall other | other != irq ensures Stored(other) == old(Stored(other)) {
        if !other.Other? && !irq.Other? { SlotsDistinct(irq, other); }
      }
    }

    /** _cyhal_irq_free: disable the line unless it is one of the ganged
        TCPWM interrupts, whose status stays as it was. */
    method Free(irq: SystemIrq)
      requires Valid()
      modifies status
      ensures Valid()
      ensures IsGangedTcpwm(irq) ==> status[..] == old(status[..])
      ensures !IsGangedTcpwm(irq) ==> !Stored(irq)
      ensures forall other :: other != irq ==> Stored(other) == old(Stored(other))
    {
      if !IsGangedTcpwm(irq) {
        Disable(irq);
      }
    }

    /** _cyhal_irq_is_enabled: a read through _cyhal_irq_state that never
        changes the table. */
    method IsEnabled(irq: SystemIrq) returns (r: bool)
      requires Valid()
      modifies status
      ensures Valid()
      ensures status[..] == old(status[..])
      ensures r == Stored(irq)
    {
      r := State(irq, false, false);
    }
  }

  /** _cyhal_irq_enable followed by _cyhal_irq_is_enabled reports a known
      line as enabled; after _cyhal_irq_disable it reports it disabled. */
  method EnableThenQuery(t: IrqTable, irq: SystemIrq) returns (on: bool, off: bool)
    requires t.Valid()
    modifies t.status
    ensures !irq.Other? ==> on
    ensures !off
  {
    t.Enable(irq);
    on := t.IsEnabled(irq);
    t.Disable(irq);
    off := t.IsEnabled(irq);
  }
}
