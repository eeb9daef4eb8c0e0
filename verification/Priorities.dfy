/**
 The part of a task control block that priority inheritance works on, and the four kernel
 operations that change it.
 */
module Priorities {

  type Positive = n: nat | n >= 1 witness 5

  /** `configMAX_PRIORITIES`. */
  const MAX_PRIORITIES: Positive

  /**
   `uxPriority`, `uxBasePriority`, `uxMutexesHeld` and the value of the event list item, which
   sorts event lists by descending priority.
   */
  datatype Prio = Prio(current: nat, base: nat, held: nat, eventValue: int)

  function EventValue(priority: nat): int { MAX_PRIORITIES - priority }

  function Max(a: nat, b: nat): nat { if a < b then b else a }

  /** `xTaskPriorityInherit` for a holder: a task of priority `p` is about to wait. */
  function Inherit(h: Prio, p: nat): Prio {
    if h.current < p then h.(current := p, eventValue := EventValue(p)) else h
  }

  /** The result of `xTaskPriorityInherit`: the holder runs on an inherited priority because of `p`. */
  predicate Inherited(h: Prio, p: nat) { h.current < p || h.base < p }

  /** `xTaskPriorityDisinherit`: the holder gives one of its mutexes back. */
  function Disinherit(h: Prio): Prio
    requires h.held > 0
  {
    var h' := h.(held := h.held - 1);
    if h.current != h.base && h'.held == 0
    then h'.(current := h.base, eventValue := EventValue(h.base))
    else h'
  }

  /** `vTaskPriorityDisinheritAfterTimeout`: a waiter gave up; `highest` is what still waits. */
  function DisinheritAfterTimeout(h: Prio, highest: nat): Prio {
    var p := Max(h.base, highest);
    if h.current != p && h.held == 1 then h.(current := p, eventValue := EventValue(p)) else h
  }

  /** The value `vTaskPrioritySet` uses: out-of-range requests are capped. */
  function Capped(p: nat): (r: nat)
    ensures r < MAX_PRIORITIES
    ensures p < MAX_PRIORITIES ==> r == p
  {
    if p >= MAX_PRIORITIES then MAX_PRIORITIES - 1 else p
  }

  /** `vTaskPrioritySet`: an inherited priority is kept, the base priority is set whatever. */
  function SetBase(h: Prio, p: nat): Prio {
    if h.base == p then h
    else h.(current := if h.base == h.current then p else h.current, base := p, eventValue := EventValue(p))
  }
}
