/** The selection logic of `EquipmentIndicators`: the equipment list and
    its lookups, the click guard and the current-equipment label, the
    `useEquipmentState` hook with its two-step timed transition, and the
    `useAutoSwitch` hook that cycles through the list. Timers are explicit:
    a pending timeout is a field and its firing is a method call. */
module EquipmentIndicators {
  import opened Common

  datatype EquipmentType = Silo | Tulha | Elevador

  datatype EquipmentConfig = EquipmentConfig(id: EquipmentType, name: string, description: Option<string>)

  /** DEFAULT_EQUIPMENTS. */
  const DefaultEquipments: seq<EquipmentConfig> := [
    EquipmentConfig(Silo, "Silo de Grãos", Some("Silo vertical para armazenamento de grãos")),
    EquipmentConfig(Tulha, "Tulha Graneleira", Some("Silo elevado com estrutura de suporte")),
    EquipmentConfig(Elevador, "Elevador de Canecas", Some("Sistema de transporte vertical de grãos"))
  ]

  /** No id occurs twice in the list. */
  predicate DistinctIds(list: seq<EquipmentConfig>) {
    forall i, j :: 0 <= i < j < |list| ==> list[i].id != list[j].id
  }

  lemma DefaultEquipmentsDistinct()
    ensures DistinctIds(DefaultEquipments) && |DefaultEquipments| == 3
  {
  }

  /** `findIndex(eq => eq.id === id)`: the first position holding id, or -1. */
  function FindIndex(list: seq<EquipmentConfig>, id: EquipmentType): (i: int)
    ensures -1 <= i < |list|
    ensures i >= 0 ==> list[i].id == id && forall j :: 0 <= j < i ==> list[j].id != id
    ensures i == -1 <==> forall j :: 0 <= j < |list| ==> list[j].id != id
  {
    if |list| == 0 then -1
    else if list[0].id == id then 0
    else
      var k := FindIndex(list[1..], id);
      if k == -1 then -1 else k + 1
  }

  /** With distinct ids, the position of the entry at k is k. */
  lemma FindIndexOfDistinct(list: seq<EquipmentConfig>, k: int)
    requires DistinctIds(list) && 0 <= k < |list|
    ensures FindIndex(list, list[k].id) == k
  {
  }

  /** `find(eq => eq.id === id)` (getCurrentEquipment). */
  function Find(list: seq<EquipmentConfig>, id: EquipmentType): (r: Option<EquipmentConfig>)
    ensures r.Some? <==> exists j :: 0 <= j < |list| && list[j].id == id
    ensures r.Some? ==> r.value.id == id && r.value in list
    ensures r.Some? ==> exists k :: 0 <= k < |list| && list[k] == r.value
                                  && forall j :: 0 <= j < k ==> list[j].id != id
  {
    var i := FindIndex(list, id);
    if i == -1 then None else Some(list[i])
  }

  /** The index the auto-switch timer moves to: `(currentIndex + 1) % length`;
      an id that is not in the list counts as -1, so the cycle restarts at 0. */
  function NextIndex(list: seq<EquipmentConfig>, current: EquipmentType): (k: nat)
    requires |list| >= 1
    ensures k < |list|
    ensures FindIndex(list, current) == -1 ==> k == 0
    ensures FindIndex(list, current) >= 0 ==> k == (FindIndex(list, current) + 1) % |list|
  {
    (FindIndex(list, current) + 1) % |list|
  }

  /** The id the cycle shows after `steps` timer firings from `current`. */
  function Advance(list: seq<EquipmentConfig>, current: EquipmentType, steps: nat): EquipmentType
    requires |list| >= 1
    decreases steps
  {
    if steps == 0 then current else Advance(list, list[NextIndex(list, current)].id, steps - 1)
  }

  /** With distinct ids, s steps from the k-th entry land on entry (k + s) mod n:
      the cycle visits the whole list in order and returns after n steps. */
  lemma {:induction false} AdvanceFromEntry(list: seq<EquipmentConfig>, k: nat, steps: nat)
    requires DistinctIds(list) && k < |list|
    ensures Advance(list, list[k].id, steps) == list[(k + steps) % |list|].id
    decreases steps
  {
    if steps > 0 {
      var n := |list|;
      var next := NextOfEntry(list, k);
      calc {
        Advance(list, list[k].id, steps);
        Advance(list, list[next].id, steps - 1);
        { AdvanceFromEntry(list, next, steps - 1); }
        list[(next + (steps - 1)) % n].id;
        { ModAdd(k + 1, steps - 1, n); }
        list[(k + steps) % n].id;
      }
    } else {
      ModUnique(k, 0, k, |list|);
    }
  }

  /** A full round of |list| firings comes back to where it started, and
      every entry is reached from the first within one round. */
  lemma {:induction false} FullCycle(list: seq<EquipmentConfig>, k: nat)
    requires DistinctIds(list) && k < |list|
    ensures Advance(list, list[k].id, |list|) == list[k].id
    ensures Advance(list, list[0].id, k) == list[k].id
  {
    AdvanceFromEntry(list, k, |list|);
    ModUnique(k + |list|, 1, k, |list|);
    AdvanceFromEntry(list, 0, k);
    ModUnique(k, 0, k, |list|);
  }

  /** One firing from the k-th entry of a list with distinct ids. */
  lemma NextOfEntry(list: seq<EquipmentConfig>, k: nat) returns (next: nat)
    requires DistinctIds(list) && k < |list|
    ensures next == (k + 1) % |list| && next == NextIndex(list, list[k].id)
  {
    FindIndexOfDistinct(list, k);
    next := (k + 1) % |list|;
  }

  /** The indicators' click handler: the id is forwarded unless a
      transition is running (`!isDisabled && onEquipmentChange(id)`). */
  function Click(isTransitioning: bool, id: EquipmentType): (forwarded: Option<EquipmentType>)
    ensures forwarded.Some? <==> !isTransitioning
    ensures forwarded.Some? ==> forwarded.value == id
  {
    if !isTransitioning then Some(id) else None
  }

  /** renderLabel: the current equipment's name, unless labels are off or
      the current id is not in the list. */
  function Label(showLabel: bool, list: seq<EquipmentConfig>, current: EquipmentType): (shown: Option<string>)
    ensures shown.Some? <==> showLabel && exists j :: 0 <= j < |list| && list[j].id == current
    ensures shown.Some? ==> shown.value == list[FindIndex(list, current)].name
  {
    if !showLabel then None
    else match Find(list, current)
      case None => None
      case Some(eq) => Some(eq.name)
  }

  lemma DefaultLabels()
    ensures Label(true, DefaultEquipments, Tulha) == Some("Tulha Graneleira")
    ensures Label(false, DefaultEquipments, Tulha) == None
    ensures Label(true, [], Silo) == None
  {
    assert FindIndex(DefaultEquipments, Tulha) == 1;
  }

  /** The timers switchEquipment leaves behind: the 100 ms one that will
      commit the new equipment, then the 200 ms one that ends the transition. */
  datatype Phase = Idle | AwaitCommit(target: EquipmentType) | AwaitRelease

  /** useEquipmentState. */
  class EquipmentState {
    var current: EquipmentType
    var transitioning: bool
    var phase: Phase

    /** A transition is running exactly while one of its timers is
        pending, and a pending commit is to a different equipment. */
    predicate Valid()
      reads this
    {
      && (transitioning <==> phase != Idle)
      && (phase.AwaitCommit? ==> phase.target != current)
    }

    constructor (initial: EquipmentType)
      ensures current == initial && !transitioning && phase == Idle && Valid()
    {
      current, transitioning, phase := initial, false, Idle;
    }

    /** switchEquipment: ignored during a transition or for the current
        equipment; otherwise the transition starts and the commit timer
        is set. */
    method Switch(target: EquipmentType)
      modifies this`transitioning, this`phase
      ensures old(transitioning) || target == current ==>
        transitioning == old(transitioning) && phase == old(phase)
      ensures !old(transitioning) && target != current ==> transitioning && phase == AwaitCommit(target)
      ensures old(Valid()) ==> Valid()
    {
      if transitioning || target == current {
        return;
      }
      transitioning := true;
      phase := AwaitCommit(target);
    }

    /** The 100 ms timer: show the target and set the 200 ms timer. */
    method CommitTimer()
      modifies this`current, this`phase
      ensures old(phase).AwaitCommit? ==> current == old(phase).target && phase == AwaitRelease
      ensures !old(phase).AwaitCommit? ==> current == old(current) && phase == old(phase)
      ensures old(Valid()) ==> Valid()
    {
      if phase.AwaitCommit? {
        current := phase.target;
        phase := AwaitRelease;
      }
    }

    /** The 200 ms timer: the transition ends. */
    method ReleaseTimer()
      modifies this`transitioning, this`phase
      ensures old(phase) == AwaitRelease ==> !transitioning && phase == Idle
      ensures old(phase) != AwaitRelease ==> transitioning == old(transitioning) && phase == old(phase)
      ensures old(Valid()) ==> Valid()
    {
      if phase == AwaitRelease {
        transitioning := false;
        phase := Idle;
      }
    }
  }

  /** A client run: a switch commits after the first timer, clicks during
      the transition are ignored, and the transition ends with the second. */
  method SwitchSession()
  {
    var state := new EquipmentState(Silo);
    state.Switch(Tulha);
    state.Switch(Elevador);
    assert state.phase == AwaitCommit(Tulha);
    state.CommitTimer();
    assert state.current == Tulha && state.transitioning;
    state.ReleaseTimer();
    assert state.current == Tulha && !state.transitioning && state.Valid();
  }

  /** useAutoSwitch. `timer` is the pending timeout together with the
      currentEquipment its closure captured. */
  class AutoSwitch {
    const equipments: seq<EquipmentConfig>
    const interval: int
    const enabled: bool
    var timer: Option<EquipmentType>
    var isActive: bool

    constructor (equipments0: seq<EquipmentConfig>, interval0: int, enabled0: bool)
      ensures equipments == equipments0 && interval == interval0 && enabled == enabled0
      ensures timer.None? && !isActive
    {
      equipments, interval, enabled := equipments0, interval0, enabled0;
      timer, isActive := None, false;
    }

    /** The guard at the head of startAutoSwitch. */
    predicate MayStart()
      reads this
    {
      enabled && |equipments| > 1 && !isActive
    }

    /** stopAutoSwitch. */
    method Stop()
      modifies this`timer, this`isActive
      ensures timer.None? && !isActive
    {
      timer := None;
      isActive := false;
    }

    /** scheduleNext: set the timeout only while active. */
    method ScheduleNext(captured: EquipmentType)
      modifies this`timer
      ensures isActive ==> timer == Some(captured)
      ensures !isActive ==> timer == old(timer)
    {
      if isActive {
        timer := Some(captured);
      }
    }

    /** startAutoSwitch as written: the flag is raised and then cleared by
        the stopAutoSwitch call that follows, so scheduleNext returns at
        once and nothing is ever scheduled. */
    method StartAsWritten(current: EquipmentType)
      modifies this`timer, this`isActive
      ensures !old(MayStart()) ==> timer == old(timer) && isActive == old(isActive)
      ensures old(MayStart()) ==> timer.None? && !isActive
    {
      if !MayStart() {
        return;
      }
      isActive := true;
      Stop();
      ScheduleNext(current);
    }

    /** startAutoSwitch with the old timeout cleared before the flag is
        raised: the first switch is scheduled. */
    method Start(current: EquipmentType)
      modifies this`timer, this`isActive
      ensures !old(MayStart()) ==> timer == old(timer) && isActive == old(isActive)
      ensures old(MayStart()) ==> timer == Some(current) && isActive
    {
      if !MayStart() {
        return;
      }
      Stop();
      isActive := true;
      ScheduleNext(current);
    }

    /** The effect: its previous cleanup (stopAutoSwitch) runs, then start
        when enabled, stop otherwise. */
    method EffectAsWritten(current: EquipmentType)
      modifies this`timer, this`isActive
      ensures timer.None? && !isActive
    {
      Stop();
      if enabled {
        StartAsWritten(current);
      } else {
        Stop();
      }
    }

    method Effect(current: EquipmentType)
      modifies this`timer, this`isActive
      ensures enabled && |equipments| > 1 ==> timer == Some(current) && isActive
      ensures !(enabled && |equipments| > 1) ==> timer.None? && !isActive
    {
      Stop();
      if enabled {
        Start(current);
      } else {
        Stop();
      }
    }

    /** The timeout fires: when still active, switch to the entry after
        the captured current one and schedule again with the same capture. */
    method Fire(state: EquipmentState)
      modifies this`timer, state`transitioning, state`phase
      ensures old(timer).None? || !isActive || |equipments| == 0 ==>
        timer.None? && state.phase == old(state.phase) && state.transitioning == old(state.transitioning)
      ensures old(timer).Some? && isActive && |equipments| >= 1 ==>
        var next := equipments[NextIndex(equipments, old(timer).value)].id;
        && timer == old(timer)
        && (!old(state.transitioning) && next != state.current ==>
              state.transitioning && state.phase == AwaitCommit(next))
        && (old(state.transitioning) || next == state.current ==>
              state.transitioning == old(state.transitioning) && state.phase == old(state.phase))
      ensures old(state.Valid()) ==> state.Valid()
    {
      if timer.None? {
        return;
      }
      var captured := timer.value;
      timer := None;
      if !isActive || |equipments| == 0 {
        return;
      }
      var next := equipments[NextIndex(equipments, captured)];
      state.Switch(next.id);
      ScheduleNext(captured);
    }
  }

  /** With the default list, the hook as written never schedules a switch,
      while the corrected start makes the first firing begin a transition
      from the silo to the tulha. */
  method AutoSwitchDemo()
  {
    var state := new EquipmentState(Silo);
    var auto := new AutoSwitch(DefaultEquipments, 8000, true);
    auto.EffectAsWritten(Silo);
    assert auto.timer.None?;
    auto.Fire(state);
    assert state.phase == Idle && state.current == Silo;

    auto.Effect(Silo);
    assert auto.timer == Some(Silo);
    assert FindIndex(DefaultEquipments, Silo) == 0;
    auto.Fire(state);
    assert state.phase == AwaitCommit(Tulha);
    state.CommitTimer();
    assert state.current == Tulha;
  }
}
