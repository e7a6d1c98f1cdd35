/**
 * Which accessories the platform registers, and who listens to the store
 * (`src/platform.ts`).
 *
 * Every HomeKit call may throw. The UUID is seeded from the device identifier alone
 * and stands for it here.
 */
module Registration {
  import opened Wrappers

  /** What Homebridge persists of an accessory and the platform compares: its names, its device record, its services. */
  type Content = int

  datatype Effect = Registered(id: string) | RegistrationThrew(id: string) | Unregistered(id: string)

  /**
   * Accessories and the instances bound to them are objects, told apart by a serial
   * number. `content` is what an accessory carries, `saved` what Homebridge wrote of it last.
   */
  datatype Platform = Platform(
    accessories: map<string, nat>,
    instances: map<string, nat>,
    uncertain: set<string>,
    persistencePending: set<nat>,
    listeners: map<string, seq<nat>>,
    content: map<nat, Content>,
    saved: map<nat, Content>,
    next: nat,
    effects: seq<Effect>)

  /**
   * How the calls of one dispatch turn out, and what the update leaves on the accessory.
   * `differs` lets the comparison see more than the content: the first update of an
   * instance starts from one that has published no service yet.
   */
  datatype Answers = Answers(
    known: bool,
    resolves: bool,
    updateThrows: bool,
    registrationThrows: bool,
    writeThrows: bool,
    differs: bool,
    after: Content)

  datatype Event =
    | Dispatches(id: string, answers: Answers)
    | Removes(id: string, unregistrationThrows: bool)
    // The record reducer of accessory `accessory` asks for its context to be written.
    | Persists(id: string, accessory: nat, writeThrows: bool)

  /** The instance an accessory owns: the one it has, or a new one that listens to the store. */
  function WithInstance(s: Platform, id: string): Platform {
    if id in s.instances then s
    else s.(instances := s.instances[id := s.next],
            listeners := s.listeners[id := (if id in s.listeners then s.listeners[id] else []) + [s.next]],
            next := s.next + 1)
  }

  /** One attempt to have Homebridge write what an accessory carries. */
  function Written(s: Platform, accessory: nat, writeThrows: bool): Platform {
    if writeThrows || accessory !in s.content then s
    else s.(saved := s.saved[accessory := s.content[accessory]], persistencePending := s.persistencePending - {accessory})
  }

  /** The accessory carries something else now, which Homebridge is owed a write of. */
  function Carrying(s: Platform, accessory: nat, differs: bool, after: Content): Platform {
    var changed := differs || accessory !in s.content || after != s.content[accessory];
    s.(content := s.content[accessory := after],
       persistencePending := if changed then s.persistencePending + {accessory} else s.persistencePending)
  }

  /** The comparison and the write run whether the update throws or not. */
  function Updated(s: Platform, id: string, answers: Answers): Platform
    requires id in s.accessories
  {
    var accessory := s.accessories[id];
    var carrying := Carrying(WithInstance(s, id), accessory, answers.differs, answers.after);
    if accessory in carrying.persistencePending then Written(carrying, accessory, answers.writeThrows) else carrying
  }

  /** A registration that returned: Homebridge has written the accessory, which is now held, bound and listened for. */
  function Adopted(s: Platform, id: string, accessory: nat, after: Content): Platform {
    s.(effects := s.effects + [Registered(id)],
       accessories := s.accessories[id := accessory],
       instances := s.instances[id := accessory + 1],
       listeners := s.listeners[id := (if id in s.listeners then s.listeners[id] else []) + [accessory + 1]],
       content := s.content[accessory := after],
       saved := s.saved[accessory := after])
  }

  function FirstSeen(s: Platform, id: string, answers: Answers): Platform {
    if id in s.uncertain || !answers.resolves then s
    else
      var accessory := s.next;
      var prepared := s.(next := s.next + 2);
      if answers.updateThrows then prepared
      else if answers.registrationThrows then
        prepared.(uncertain := s.uncertain + {id}, effects := s.effects + [RegistrationThrew(id)])
      else Adopted(prepared, id, accessory, answers.after)
  }

  function Dispatched(s: Platform, id: string, answers: Answers): Platform {
    if !answers.known then s
    else if id in s.accessories then Updated(s, id, answers)
    else FirstSeen(s, id, answers)
  }

  function Removed(s: Platform, id: string, unregistrationThrows: bool): Platform {
    if id !in s.accessories || unregistrationThrows then s
    else s.(effects := s.effects + [Unregistered(id)],
            accessories := s.accessories - {id},
            instances := s.instances - {id},
            listeners := s.listeners - {id})
  }

  /** The persist port writes only an accessory this platform holds as its own. */
  function Persisted(s: Platform, id: string, accessory: nat, writeThrows: bool): Platform {
    if id !in s.accessories || s.accessories[id] != accessory then s else Written(s, accessory, writeThrows)
  }

  function Step(s: Platform, e: Event): Platform {
    match e
    case Dispatches(id, answers) => Dispatched(s, id, answers)
    case Removes(id, throws) => Removed(s, id, throws)
    case Persists(id, accessory, writeThrows) => Persisted(s, id, accessory, writeThrows)
  }

  function Run(s: Platform, es: seq<Event>): Platform {
    if es == [] then s else Step(Run(s, es[..|es| - 1]), es[|es| - 1])
  }

  /** A platform that Homebridge has handed its cached accessories, one object each. */
  ghost predicate Restored(s: Platform) {
    && s.instances == map[] && s.uncertain == {} && s.persistencePending == {} && s.listeners == map[] && s.effects == []
    && s.content == s.saved
    && (forall id :: id in s.accessories ==> s.accessories[id] < s.next && s.accessories[id] in s.content)
    && (forall id, other :: id in s.accessories && other in s.accessories && s.accessories[id] == s.accessories[other] ==> id == other)
  }

  // ---- Listeners and owed writes ----

  /** Each instance is the one listener of its device, and nobody else listens. */
  ghost predicate OneListenerEach(s: Platform) {
    && s.listeners.Keys == s.instances.Keys
    && s.instances.Keys <= s.accessories.Keys
    && forall id :: id in s.instances ==> s.listeners[id] == [s.instances[id]]
  }

  /** No two accessories are one object, and every object was made earlier. */
  ghost predicate SeparateObjects(s: Platform) {
    && (forall id :: id in s.accessories ==> s.accessories[id] < s.next && s.accessories[id] in s.content)
    && (forall id, other :: id in s.accessories && other in s.accessories && s.accessories[id] == s.accessories[other] ==> id == other)
  }

  /** What Homebridge has not written of a held accessory is owed. */
  ghost predicate WritesAreOwed(s: Platform) {
    forall id :: id in s.accessories ==>
      var accessory := s.accessories[id];
      accessory in s.persistencePending || (accessory in s.saved && accessory in s.content && s.saved[accessory] == s.content[accessory])
  }

  /** A UUID whose registration threw is neither held nor tried again. */
  ghost predicate UncertainAreHeldBack(s: Platform) {
    forall id :: id in s.uncertain ==> id !in s.accessories && RegistrationThrew(id) in s.effects
  }

  ghost predicate Inv(s: Platform) {
    OneListenerEach(s) && SeparateObjects(s) && WritesAreOwed(s) && UncertainAreHeldBack(s)
  }

  lemma BindingKeepsInv(s: Platform, id: string)
    requires Inv(s) && id in s.accessories
    ensures Inv(WithInstance(s, id))
  {
  }

  lemma CarryingKeepsInv(s: Platform, id: string, differs: bool, after: Content)
    requires Inv(s) && id in s.accessories
    ensures Inv(Carrying(s, s.accessories[id], differs, after))
  {
    assert OneListenerEach(Carrying(s, s.accessories[id], differs, after));
  }

  lemma WritingKeepsInv(s: Platform, accessory: nat, writeThrows: bool)
    requires Inv(s)
    ensures Inv(Written(s, accessory, writeThrows))
  {
    assert OneListenerEach(Written(s, accessory, writeThrows));
  }

  lemma UpdatingKeepsInv(s: Platform, id: string, answers: Answers)
    requires Inv(s) && id in s.accessories
    ensures Inv(Updated(s, id, answers))
  {
    BindingKeepsInv(s, id);
    var bound, accessory := WithInstance(s, id), s.accessories[id];
    CarryingKeepsInv(bound, id, answers.differs, answers.after);
    WritingKeepsInv(Carrying(bound, accessory, answers.differs, answers.after), accessory, answers.writeThrows);
  }

  lemma AdoptingKeepsInv(s: Platform, id: string, accessory: nat, after: Content)
    requires Inv(s) && id !in s.accessories && id !in s.uncertain && accessory < s.next
    requires forall other :: other in s.accessories ==> s.accessories[other] < accessory
    ensures Inv(Adopted(s, id, accessory, after))
  {
    var next := Adopted(s, id, accessory, after);
    assert OneListenerEach(next);
    assert SeparateObjects(next);
    assert WritesAreOwed(next);
    assert UncertainAreHeldBack(next);
  }

  lemma FirstSightKeepsInv(s: Platform, id: string, answers: Answers)
    requires Inv(s) && id !in s.accessories
    ensures Inv(FirstSeen(s, id, answers))
  {
    if id !in s.uncertain && answers.resolves {
      var prepared := s.(next := s.next + 2);
      assert Inv(prepared);
      if !answers.updateThrows && !answers.registrationThrows {
        AdoptingKeepsInv(prepared, id, s.next, answers.after);
      }
    }
  }

  lemma RemovingKeepsInv(s: Platform, id: string, throws: bool)
    requires Inv(s)
    ensures Inv(Removed(s, id, throws))
  {
  }

  lemma StepKeepsInv(s: Platform, e: Event)
    requires Inv(s)
    ensures Inv(Step(s, e))
  {
    match e
    case Dispatches(id, answers) =>
      if answers.known {
        if id in s.accessories { UpdatingKeepsInv(s, id, answers); } else { FirstSightKeepsInv(s, id, answers); }
      }
    case Removes(id, throws) => RemovingKeepsInv(s, id, throws);
    case Persists(id, accessory, writeThrows) => WritingKeepsInv(s, accessory, writeThrows);
  }

  // ---- Registrations ----

  /** Whether Homebridge holds the UUID, told from what was called alone. */
  function Holds(held: bool, effects: seq<Effect>, id: string): bool {
    if effects == [] then held
    else
      match effects[|effects| - 1]
      case Registered(other) => other == id || Holds(held, effects[..|effects| - 1], id)
      case Unregistered(other) => other != id && Holds(held, effects[..|effects| - 1], id)
      case RegistrationThrew(_) => Holds(held, effects[..|effects| - 1], id)
  }

  /** A registration is attempted only for a UUID Homebridge does not hold and whose earlier attempts never threw. */
  ghost predicate Disciplined(held: set<string>, effects: seq<Effect>) {
    forall i :: 0 <= i < |effects| && !effects[i].Unregistered? ==>
      && !Holds(effects[i].id in held, effects[..i], effects[i].id)
      && RegistrationThrew(effects[i].id) !in effects[..i]
  }

  ghost predicate CallsMatch(held: set<string>, effects: seq<Effect>, accessories: set<string>, uncertain: set<string>) {
    && Disciplined(held, effects)
    && (forall id :: id in accessories <==> Holds(id in held, effects, id))
    && (forall id :: RegistrationThrew(id) in effects ==> id in uncertain)
  }

  ghost predicate MatchesCalls(held: set<string>, s: Platform) {
    CallsMatch(held, s.effects, s.accessories.Keys, s.uncertain)
  }

  lemma CallsStayDisciplined(held: set<string>, effects: seq<Effect>, effect: Effect)
    requires Disciplined(held, effects)
    requires !effect.Unregistered? ==> !Holds(effect.id in held, effects, effect.id) && RegistrationThrew(effect.id) !in effects
    ensures Disciplined(held, effects + [effect])
  {
    var all := effects + [effect];
    forall i | 0 <= i < |all| && !all[i].Unregistered?
      ensures !Holds(all[i].id in held, all[..i], all[i].id) && RegistrationThrew(all[i].id) !in all[..i]
    {
      assert all[..i] == effects[..i];
      if i == |effects| {
        assert effects[..i] == effects;
      }
    }
  }

  /** One call more, and what the platform holds moved with it. */
  lemma CallMatches(held: set<string>, s: Platform, next: Platform, effect: Effect)
    requires MatchesCalls(held, s) && next.effects == s.effects + [effect]
    requires effect.Registered? ==>
               effect.id !in s.accessories && effect.id !in s.uncertain
               && next.accessories.Keys == s.accessories.Keys + {effect.id} && next.uncertain == s.uncertain
    requires effect.RegistrationThrew? ==>
               effect.id !in s.accessories && effect.id !in s.uncertain
               && next.accessories == s.accessories && next.uncertain == s.uncertain + {effect.id}
    requires effect.Unregistered? ==> next.accessories.Keys == s.accessories.Keys - {effect.id} && next.uncertain == s.uncertain
    ensures MatchesCalls(held, next)
  {
    CallsStayDisciplined(held, s.effects, effect);
    assert next.effects[..|s.effects|] == s.effects;
    forall id ensures id in next.accessories <==> Holds(id in held, next.effects, id) {
      assert id in s.accessories <==> Holds(id in held, s.effects, id);
    }
    assert forall x :: x in next.effects <==> x in s.effects || x == effect;
  }

  lemma FirstSightMatchesCalls(held: set<string>, s: Platform, id: string, answers: Answers)
    requires MatchesCalls(held, s) && id !in s.accessories
    ensures MatchesCalls(held, FirstSeen(s, id, answers))
  {
    if id !in s.uncertain && answers.resolves && !answers.updateThrows {
      CallMatches(held, s, FirstSeen(s, id, answers), if answers.registrationThrows then RegistrationThrew(id) else Registered(id));
    }
  }

  lemma RemovalMatchesCalls(held: set<string>, s: Platform, id: string, throws: bool)
    requires MatchesCalls(held, s)
    ensures MatchesCalls(held, Removed(s, id, throws))
  {
    if id in s.accessories && !throws {
      CallMatches(held, s, Removed(s, id, throws), Unregistered(id));
    }
  }

  lemma UpdatesCallNothing(s: Platform, id: string, answers: Answers)
    requires id in s.accessories
    ensures var next := Updated(s, id, answers);
            next.effects == s.effects && next.accessories == s.accessories && next.uncertain == s.uncertain
  {
  }

  lemma StepMatchesCalls(held: set<string>, s: Platform, e: Event)
    requires MatchesCalls(held, s)
    ensures MatchesCalls(held, Step(s, e))
  {
    match e
    case Dispatches(id, answers) =>
      if answers.known {
        if id in s.accessories { UpdatesCallNothing(s, id, answers); } else { FirstSightMatchesCalls(held, s, id, answers); }
      }
    case Removes(id, throws) => RemovalMatchesCalls(held, s, id, throws);
    case Persists(_, _, _) =>
  }

  lemma {:induction false} RunKeepsInv(s: Platform, es: seq<Event>)
    requires Restored(s)
    ensures Inv(Run(s, es)) && MatchesCalls(s.accessories.Keys, Run(s, es))
    decreases |es|
  {
    if es != [] {
      RunKeepsInv(s, es[..|es| - 1]);
      StepKeepsInv(Run(s, es[..|es| - 1]), es[|es| - 1]);
      StepMatchesCalls(s.accessories.Keys, Run(s, es[..|es| - 1]), es[|es| - 1]);
    }
  }

  /** Between a registration and any later attempt stands an unregistration. */
  lemma {:induction false} HeldUntilUnregistered(held: bool, effects: seq<Effect>, id: string, i: nat)
    requires i < |effects| && effects[i] == Registered(id)
    requires !Holds(held, effects, id)
    ensures exists k :: i < k < |effects| && effects[k] == Unregistered(id)
    decreases |effects|
  {
    var last := |effects| - 1;
    if effects[last] != Unregistered(id) {
      HeldUntilUnregistered(held, effects[..last], id, i);
      var k :| i < k < last && effects[..last][k] == Unregistered(id);
      assert effects[k] == Unregistered(id);
    }
  }

  lemma {:induction false} RestoredUntilUnregistered(effects: seq<Effect>, id: string)
    requires !Holds(true, effects, id)
    ensures exists k :: 0 <= k < |effects| && effects[k] == Unregistered(id)
    decreases |effects|
  {
    var last := |effects| - 1;
    if effects[last] != Unregistered(id) {
      RestoredUntilUnregistered(effects[..last], id);
      var k :| 0 <= k < last && effects[..last][k] == Unregistered(id);
      assert effects[k] == Unregistered(id);
    }
  }

  /**
   * Over any sequence of inventories, removals, record writes and throwing HomeKit
   * calls: two registrations of one UUID have an unregistration between them, a
   * restored UUID is unregistered before it is ever registered, and after a
   * registration that threw the UUID is never registered again.
   */
  lemma RegistrationsAreUnique(s: Platform, es: seq<Event>, i: nat, j: nat)
    requires Restored(s)
    requires var effects := Run(s, es).effects; i < j < |effects| && effects[j].Registered?
    ensures var effects := Run(s, es).effects;
            && effects[i] != RegistrationThrew(effects[j].id)
            && (effects[i] == effects[j] ==> exists k :: i < k < j && effects[k] == Unregistered(effects[j].id))
            && (effects[j].id in s.accessories ==> exists k :: 0 <= k < j && effects[k] == Unregistered(effects[j].id))
  {
    RunKeepsInv(s, es);
    var effects := Run(s, es).effects;
    var id, before := effects[j].id, effects[..j];
    assert before[i] == effects[i];
    assert !Holds(id in s.accessories.Keys, before, id) && RegistrationThrew(id) !in before;
    if effects[i] == effects[j] {
      HeldUntilUnregistered(id in s.accessories.Keys, before, id, i);
      var k :| i < k < j && before[k] == Unregistered(id);
      assert effects[k] == Unregistered(id);
    }
    if id in s.accessories {
      RestoredUntilUnregistered(before, id);
      var k :| 0 <= k < j && before[k] == Unregistered(id);
      assert effects[k] == Unregistered(id);
    }
  }

  /**
   * And throughout, every accessory instance is the only live-state listener of its
   * device, and what Homebridge has not yet written of an accessory stays owed.
   */
  lemma ListenersAndWritesAreKept(s: Platform, es: seq<Event>)
    requires Restored(s)
    ensures OneListenerEach(Run(s, es)) && WritesAreOwed(Run(s, es))
  {
    RunKeepsInv(s, es);
  }

  /** What one event asks of Homebridge: it registers a device it does not hold, whose update and registration do not throw, and unregisters one it holds. */
  function Asked(s: Platform, e: Event): seq<Effect> {
    match e
    case Dispatches(id, answers) =>
      if answers.known && id !in s.accessories && id !in s.uncertain && answers.resolves && !answers.updateThrows then
        [if answers.registrationThrows then RegistrationThrew(id) else Registered(id)]
      else []
    case Removes(id, throws) => if id in s.accessories && !throws then [Unregistered(id)] else []
    case Persists(_, _, _) => []
  }

  lemma StepsAskExactly(s: Platform, e: Event)
    ensures Step(s, e).effects == s.effects + Asked(s, e)
  {
    if e.Dispatches? && e.id in s.accessories {
      UpdatesCallNothing(s, e.id, e.answers);
    }
  }

  /** A dispatch leaves a held device bound to one instance, the one it had if it had one, and touches no other device's. */
  lemma DispatchesBind(s: Platform, id: string, answers: Answers, other: string)
    requires Inv(s) && answers.known
    ensures var t := Step(s, Dispatches(id, answers));
            && (id in t.accessories ==> id in t.instances && id in t.listeners)
            && (id in s.instances ==> id in t.instances && t.instances[id] == s.instances[id])
            && (id in s.accessories ==> id in t.accessories && t.accessories[id] == s.accessories[id])
            && (other != id ==> (other in t.instances <==> other in s.instances) && (other in s.instances ==> t.instances[other] == s.instances[other]))
            && (other != id ==> (other in t.accessories <==> other in s.accessories) && (other in s.accessories ==> t.accessories[other] == s.accessories[other]))
  {
    if id in s.accessories {
      UpdatesBind(s, id, answers);
    } else {
      FirstSightsBind(s, id, answers);
    }
  }

  lemma UpdatesBind(s: Platform, id: string, answers: Answers)
    requires id in s.accessories
    ensures var t := Updated(s, id, answers);
            t.accessories == s.accessories && t.instances == WithInstance(s, id).instances && t.listeners == WithInstance(s, id).listeners
  {
  }

  lemma FirstSightsBind(s: Platform, id: string, answers: Answers)
    requires Inv(s) && id !in s.accessories
    ensures var t := FirstSeen(s, id, answers);
            || (t.accessories == s.accessories && t.instances == s.instances && t.listeners == s.listeners)
            || (id in t.listeners && t.accessories == s.accessories[id := s.next] && t.instances == s.instances[id := s.next + 1])
  {
  }

  /** No two objects are one: an instance is its own device's alone, and made before any object still to come. */
  ghost predicate Separate(instances: map<string, nat>, accessories: map<string, nat>, next: nat) {
    && (forall id :: id in instances ==> instances[id] < next)
    && (forall id :: id in accessories ==> accessories[id] < next)
    && (forall id, other :: id in instances && other in accessories ==> instances[id] != accessories[other])
    && (forall id, other :: id in instances && other in instances && instances[id] == instances[other] ==> id == other)
  }

  ghost predicate SeparateInstances(s: Platform) {
    Separate(s.instances, s.accessories, s.next)
  }

  lemma StepKeepsInstancesSeparate(s: Platform, e: Event)
    requires Inv(s) && SeparateInstances(s)
    ensures SeparateInstances(Step(s, e))
  {
    if e.Dispatches? && e.answers.known {
      if e.id in s.accessories {
        UpdateKeepsInstancesSeparate(s, e.id, e.answers);
      } else {
        FirstSightKeepsInstancesSeparate(s, e.id, e.answers);
      }
    } else if e.Persists? {
      RecordsWriteTheirOwn(s, e.id, e.accessory, e.writeThrows);
    }
  }

  lemma UpdateKeepsInstancesSeparate(s: Platform, id: string, answers: Answers)
    requires SeparateInstances(s) && id in s.accessories
    ensures SeparateInstances(Updated(s, id, answers))
  {
    UpdatesBind(s, id, answers);
    UpdatesMakeObjects(s, id, answers);
    InstancesGrow(s.instances, s.accessories, s.next, id);
  }

  lemma UpdatesMakeObjects(s: Platform, id: string, answers: Answers)
    requires id in s.accessories
    ensures Updated(s, id, answers).next == if id in s.instances then s.next else s.next + 1
  {
  }

  lemma InstancesGrow(instances: map<string, nat>, accessories: map<string, nat>, next: nat, id: string)
    requires Separate(instances, accessories, next)
    ensures Separate(instances[id := next], accessories, next + 1)
    ensures Separate(instances[id := next + 1], accessories[id := next], next + 2)
    ensures forall later: nat :: later >= next ==> Separate(instances, accessories, later)
  {
  }

  lemma FirstSightKeepsInstancesSeparate(s: Platform, id: string, answers: Answers)
    requires Inv(s) && SeparateInstances(s) && id !in s.accessories
    ensures SeparateInstances(FirstSeen(s, id, answers))
  {
    FirstSightsBind(s, id, answers);
    FirstSightsMakeObjects(s, id, answers);
    InstancesGrow(s.instances, s.accessories, s.next, id);
  }

  lemma FirstSightsMakeObjects(s: Platform, id: string, answers: Answers)
    ensures var t := FirstSeen(s, id, answers); t.next >= s.next && (t.accessories != s.accessories ==> t.next == s.next + 2)
  {
  }

  /** Over every run each device's instance is an object of its own. */
  lemma {:induction false} InstancesStaySeparate(s: Platform, es: seq<Event>)
    requires Restored(s)
    ensures SeparateInstances(Run(s, es))
    decreases |es|
  {
    if es != [] {
      InstancesStaySeparate(s, es[..|es| - 1]);
      RunKeepsInv(s, es[..|es| - 1]);
      StepKeepsInstancesSeparate(Run(s, es[..|es| - 1]), es[|es| - 1]);
    }
  }

  /** A committed removal leaves nothing of the device: no accessory, no instance, no listener. */
  lemma RemovalsLeaveNothing(s: Platform, id: string, other: string)
    requires Inv(s)
    ensures var t := Step(s, Removes(id, false));
            && id !in t.accessories && id !in t.instances && id !in t.listeners
            && (other != id && other in s.accessories ==> other in t.accessories && t.accessories[other] == s.accessories[other])
            && (other != id && other in s.instances ==> other in t.instances && t.instances[other] == s.instances[other])
    ensures Step(s, Removes(id, true)) == s
  {
  }

  /** A held device carries what its update left; Homebridge is asked to write it exactly when that differs or a write was owed already. */
  lemma UpdatesAreOwedExactlyWhen(s: Platform, id: string, answers: Answers)
    requires Inv(s) && id in s.accessories && answers.known
    ensures var t, accessory := Step(s, Dispatches(id, answers)), s.accessories[id];
            var owed := accessory in s.persistencePending || answers.differs || s.content[accessory] != answers.after;
            && accessory in t.content && t.content[accessory] == answers.after
            && (accessory in t.persistencePending <==> owed && answers.writeThrows)
            && (if owed && !answers.writeThrows then accessory in t.saved && t.saved[accessory] == answers.after
                else (accessory in t.saved <==> accessory in s.saved) && (accessory in s.saved ==> t.saved[accessory] == s.saved[accessory]))
  {
  }

  /** A record's own write lands for the accessory the platform holds, pays what was owed of it, and does nothing for any other. */
  lemma RecordsWriteTheirOwn(s: Platform, id: string, accessory: nat, writeThrows: bool)
    requires Inv(s)
    ensures var t := Step(s, Persists(id, accessory, writeThrows));
            if id in s.accessories && s.accessories[id] == accessory && !writeThrows then
              t == s.(saved := s.saved[accessory := s.content[accessory]], persistencePending := s.persistencePending - {accessory})
            else t == s
  {
  }

  /** The next inventory that lists the device pays what is owed, also when nothing changed, as long as the write lands. */
  lemma OwedWritesArePaid(s: Platform, id: string, answers: Answers)
    requires Inv(s) && id in s.accessories && answers.known && !answers.writeThrows
    ensures var next, accessory := Dispatched(s, id, answers), s.accessories[id];
            && accessory !in next.persistencePending
            && accessory in next.saved && next.saved[accessory] == answers.after
  {
  }

  /** A candidate accessory that is still being prepared is never written by its own record. */
  lemma CandidatesAreNotWritten(s: Platform, id: string, writeThrows: bool)
    requires Inv(s)
    ensures Persisted(s, id, s.next, writeThrows) == s
  {
  }

  // ---- The platform ----

  class DiscoveryPlatform {
    var accessories: map<string, nat>
    var instances: map<string, nat>
    var uncertain: set<string>
    var persistencePending: set<nat>
    var listeners: map<string, seq<nat>>
    var content: map<nat, Content>
    var saved: map<nat, Content>
    var next: nat
    var effects: seq<Effect>

    function Held(): Platform
      reads this
    {
      Platform(accessories, instances, uncertain, persistencePending, listeners, content, saved, next, effects)
    }

    constructor (cached: map<string, nat>, carried: map<nat, Content>, next: nat)
      requires forall id :: id in cached ==> cached[id] < next && cached[id] in carried
      requires forall id, other :: id in cached && other in cached && cached[id] == cached[other] ==> id == other
      ensures Restored(Held()) && accessories == cached && saved == carried
    {
      accessories, instances, uncertain, persistencePending, listeners := cached, map[], {}, {}, map[];
      content, saved, effects := carried, carried, [];
      this.next := next;
    }

    method SubscribeToLiveState(id: string, instance: nat)
      modifies `listeners
      ensures listeners == old(listeners)[id := (if id in old(listeners) then old(listeners)[id] else []) + [instance]]
    {
      var registered := if id in listeners then listeners[id] else [];
      listeners := listeners[id := registered + [instance]];
    }

    method AccessoryFor(id: string)
      modifies `instances, `listeners, `next
      ensures Held() == WithInstance(old(Held()), id)
    {
      if id in instances {
        return;
      }
      instances := instances[id := next];
      SubscribeToLiveState(id, next);
      next := next + 1;
    }

    method Write(accessory: nat, writeThrows: bool)
      modifies `saved, `persistencePending
      ensures Held() == Written(old(Held()), accessory, writeThrows)
    {
      if !writeThrows && accessory in content {
        saved := saved[accessory := content[accessory]];
        persistencePending := persistencePending - {accessory};
      }
    }

    method UpdateDiscoveredDevice(id: string, answers: Answers)
      requires id in accessories
      modifies this
      ensures Held() == Updated(old(Held()), id, answers)
    {
      var accessory := accessories[id];
      AccessoryFor(id);
      if answers.differs || accessory !in content || answers.after != content[accessory] {
        persistencePending := persistencePending + {accessory};
      }
      content := content[accessory := answers.after];
      if accessory in persistencePending {
        Write(accessory, answers.writeThrows);
      }
    }

    method Adopt(id: string, accessory: nat, after: Content)
      modifies this
      ensures Held() == Adopted(old(Held()), id, accessory, after)
    {
      effects := effects + [Registered(id)];
      content := content[accessory := after];
      saved := saved[accessory := after];
      instances := instances[id := accessory + 1];
      SubscribeToLiveState(id, accessory + 1);
      accessories := accessories[id := accessory];
    }

    method RegisterFirstSeen(id: string, answers: Answers)
      modifies this
      ensures Held() == FirstSeen(old(Held()), id, answers)
    {
      if id in uncertain || !answers.resolves {
        return;
      }
      var accessory := next;
      next := next + 2;
      if answers.updateThrows {
        return;
      }
      if answers.registrationThrows {
        uncertain := uncertain + {id};
        effects := effects + [RegistrationThrew(id)];
        return;
      }
      Adopt(id, accessory, answers.after);
    }

    method DispatchDiscoveredDevice(id: string, answers: Answers)
      modifies this
      ensures Held() == Dispatched(old(Held()), id, answers)
    {
      if !answers.known {
        return;
      }
      if id in accessories {
        UpdateDiscoveredDevice(id, answers);
      } else {
        RegisterFirstSeen(id, answers);
      }
    }

    /** One inventory: a device that throws costs only its own turn. */
    method RegisterDiscoveredDevices(inventory: seq<(string, Answers)>)
      modifies this
      ensures Held() == Run(old(Held()), seq(|inventory|, i requires 0 <= i < |inventory| => Dispatches(inventory[i].0, inventory[i].1)))
    {
      ghost var es := seq(|inventory|, i requires 0 <= i < |inventory| => Dispatches(inventory[i].0, inventory[i].1));
      for i := 0 to |inventory|
        invariant Held() == Run(old(Held()), es[..i])
      {
        assert es[..i + 1][..i] == es[..i];
        DispatchDiscoveredDevice(inventory[i].0, inventory[i].1);
      }
      assert es[..|inventory|] == es;
    }

    method RemoveDiscoveredDevice(id: string, unregistrationThrows: bool)
      modifies this
      ensures Held() == Step(old(Held()), Removes(id, unregistrationThrows))
    {
      if id !in accessories || unregistrationThrows {
        return;
      }
      effects := effects + [Unregistered(id)];
      accessories := accessories - {id};
      instances := instances - {id};
      listeners := listeners - {id};
    }

    method Persist(id: string, accessory: nat, writeThrows: bool)
      modifies `saved, `persistencePending
      ensures Held() == Step(old(Held()), Persists(id, accessory, writeThrows))
    {
      if id in accessories && accessories[id] == accessory {
        Write(accessory, writeThrows);
      }
    }
  }
}
