/**
  `DiscordCommandProvider`: the registry of slash-command interactions (event
  id to payload, each put scheduling a one-shot expiry) and the map from
  command class to the registered command.

  The asynchronous expiry task is an explicit step: every put adds a pending
  `Timer` that captured the event id and the payload's class, and any pending
  timer may fire at any time. A ghost log records the calls of the
  `onInteractionTimeout` hook.
 */
module DiscordCommandProvider {
  import opened JavaLang

  /** A Java class, by its name. */
  type ClassName = string

  /** The runtime class of an object and the classes and interfaces it extends. */
  datatype RuntimeType = RuntimeType(name: ClassName, supertypes: set<ClassName>)
  {
    /** `Class.isInstance`: the object is of class c or of a subtype of c. */
    predicate InstanceOf(c: ClassName) {
      c == name || c in supertypes
    }
  }

  /** An interaction payload; `state` stands for its fields, which the registry never reads. */
  datatype Interaction = Interaction(runtimeType: RuntimeType, state: nat)

  /** A slash command's `CommandData`; `name` stands for its definition. */
  datatype CommandData = CommandData(runtimeType: RuntimeType, name: string)

  /** A `PluginSlashCommand`: the plugin, the command and the guild it is registered in. */
  datatype SlashEntry = SlashEntry(plugin: string, command: CommandData, guildID: string)

  /** A scheduled expiry task: the event id and the payload class captured when it was scheduled. */
  datatype Timer = Timer(eventId: Long, payloadClass: ClassName)

  /** The interaction registry: the map, the scheduled expiry tasks and the log of timeout-hook calls. */
  datatype Registry = Registry(interactions: map<Long, Interaction>, pending: multiset<Timer>, timeouts: seq<Timer>)

  /** `putPayload(eventID, payload)`: store the payload and schedule its expiry. */
  function AfterPut(r: Registry, eventID: Long, payload: Interaction): (r': Registry)
    ensures eventID in r'.interactions && r'.interactions[eventID] == payload
    ensures r'.interactions.Keys == r.interactions.Keys + {eventID}
    ensures forall k :: k in r.interactions && k != eventID ==> r'.interactions[k] == r.interactions[k]
    ensures r'.pending == r.pending + multiset{Timer(eventID, payload.runtimeType.name)}
    ensures r'.timeouts == r.timeouts
  {
    Registry(r.interactions[eventID := payload],
             r.pending + multiset{Timer(eventID, payload.runtimeType.name)},
             r.timeouts)
  }

  /** `removeInteraction(eventID)`: drop the entry, if any; scheduled tasks stay scheduled. */
  function AfterRemove(r: Registry, eventID: Long): (r': Registry)
    ensures eventID !in r'.interactions
    ensures r'.interactions.Keys == r.interactions.Keys - {eventID}
    ensures forall k :: k in r'.interactions ==> r'.interactions[k] == r.interactions[k]
    ensures r'.pending == r.pending && r'.timeouts == r.timeouts
  {
    r.(interactions := r.interactions - {eventID})
  }

  /** `clearInteractions()`: drop every entry without calling the timeout hook. */
  function AfterClear(r: Registry): (r': Registry)
    ensures forall k :: k !in r'.interactions
    ensures r'.pending == r.pending && r'.timeouts == r.timeouts
  {
    r.(interactions := map[])
  }

  /**
    The body of the scheduled task of timer t: remove the entry under the
    captured id, and only when something was removed call the hook with the
    captured class. The task runs once.
   */
  function AfterExpiry(r: Registry, t: Timer): (r': Registry)
    requires t in r.pending
    ensures r'.pending == r.pending - multiset{t}
    ensures t.eventId !in r'.interactions
    ensures r'.interactions.Keys == r.interactions.Keys - {t.eventId}
    ensures forall k :: k in r'.interactions ==> r'.interactions[k] == r.interactions[k]
    ensures t.eventId in r.interactions ==> r'.timeouts == r.timeouts + [t]
    ensures t.eventId !in r.interactions ==> r'.timeouts == r.timeouts
  {
    var rest := r.pending - multiset{t};
    if t.eventId in r.interactions then
      Registry(r.interactions - {t.eventId}, rest, r.timeouts + [t])
    else
      r.(pending := rest)
  }

  /** One thing that can happen to the registry. */
  datatype Step =
    | PutStep(id: Long, payload: Interaction)
    | RemoveStep(id: Long)
    | ClearStep
    | ExpireStep(timer: Timer)

  /** A step; a timer that is not pending does not fire. */
  function Apply(r: Registry, s: Step): Registry {
    match s
    case PutStep(id, payload) => AfterPut(r, id, payload)
    case RemoveStep(id) => AfterRemove(r, id)
    case ClearStep => AfterClear(r)
    case ExpireStep(t) => if t in r.pending then AfterExpiry(r, t) else r
  }

  /** A run of steps, first to last. */
  function Run(r: Registry, steps: seq<Step>): Registry
    decreases |steps|
  {
    if steps == [] then r else Run(Apply(r, steps[0]), steps[1..])
  }

  /** The number of puts in a run of steps. */
  function PutCount(steps: seq<Step>): nat
    decreases |steps|
  {
    if steps == [] then 0 else (if steps[0].PutStep? then 1 else 0) + PutCount(steps[1..])
  }

  /** No step ever takes back a hook call: the log only grows. */
  lemma {:induction false} LogOnlyGrows(r: Registry, steps: seq<Step>)
    ensures r.timeouts <= Run(r, steps).timeouts
    decreases |steps|
  {
    if steps != [] {
      var next := Apply(r, steps[0]);
      assert r.timeouts <= next.timeouts;
      LogOnlyGrows(next, steps[1..]);
    }
  }

  /**
    Every hook call is paid for by a distinct scheduled task: the hook calls
    made during a run, plus the tasks still pending after it, never exceed the
    tasks pending before it plus the puts of the run.
   */
  lemma {:induction false} HooksPaidByTimers(r: Registry, steps: seq<Step>)
    ensures |Run(r, steps).timeouts| + |Run(r, steps).pending| <= |r.timeouts| + |r.pending| + PutCount(steps)
    decreases |steps|
  {
    if steps != [] {
      var next := Apply(r, steps[0]);
      if steps[0].ExpireStep? && steps[0].timer in r.pending {
        var t := steps[0].timer;
        assert |r.pending - multiset{t}| == |r.pending| - 1;
      }
      HooksPaidByTimers(next, steps[1..]);
    }
  }

  /** The steps of a run put nothing under id. */
  predicate NoPutFor(steps: seq<Step>, id: Long) {
    forall i :: 0 <= i < |steps| && steps[i].PutStep? ==> steps[i].id != id
  }

  /** Without an entry under id and without a put for it, a run never calls the hook for id. */
  lemma {:induction false} NoHookWithoutEntry(r: Registry, steps: seq<Step>, id: Long)
    requires id !in r.interactions
    requires NoPutFor(steps, id)
    ensures id !in Run(r, steps).interactions
    ensures r.timeouts <= Run(r, steps).timeouts
    ensures forall j :: |r.timeouts| <= j < |Run(r, steps).timeouts| ==> Run(r, steps).timeouts[j].eventId != id
    decreases |steps|
  {
    if steps != [] {
      var next := Apply(r, steps[0]);
      assert id !in next.interactions;
      assert next.timeouts == r.timeouts || (|next.timeouts| == |r.timeouts| + 1 && next.timeouts[|r.timeouts|].eventId != id);
      assert NoPutFor(steps[1..], id) by {
        forall i | 0 <= i < |steps[1..]| && steps[1..][i].PutStep? ensures steps[1..][i].id != id {
          assert steps[1..][i] == steps[i + 1];
        }
      }
      NoHookWithoutEntry(next, steps[1..], id);
      var final := Run(r, steps);
      assert final == Run(next, steps[1..]);
      forall j | |r.timeouts| <= j < |final.timeouts| ensures final.timeouts[j].eventId != id {
        if j >= |next.timeouts| {
        } else {
          assert final.timeouts[j] == next.timeouts[j];
        }
      }
    }
  }

  /**
    Consumed before expiry: once the entry under id is removed, the expiry of
    its put finds nothing, and no later step calls the hook for id unless id
    is put again.
   */
  lemma ConsumeBeforeExpiry(r: Registry, id: Long, steps: seq<Step>)
    requires NoPutFor(steps, id)
    ensures var final := Run(AfterRemove(r, id), steps);
      && r.timeouts <= final.timeouts
      && forall j :: |r.timeouts| <= j < |final.timeouts| ==> final.timeouts[j].eventId != id
  {
    NoHookWithoutEntry(AfterRemove(r, id), steps, id);
  }

  /** The steps of a run put nothing at all. */
  predicate NoPuts(steps: seq<Step>) {
    forall i :: 0 <= i < |steps| ==> !steps[i].PutStep?
  }

  /** After `clearInteractions()`, no timer pending at that moment (or later) calls the hook until a new put. */
  lemma {:induction false} ClearSilencesTimers(r: Registry, steps: seq<Step>)
    requires NoPuts(steps)
    ensures Run(AfterClear(r), steps).timeouts == r.timeouts
  {
    var cleared := AfterClear(r);
    var final := Run(cleared, steps);
    LogOnlyGrows(cleared, steps);
    if |final.timeouts| > |r.timeouts| {
      var id := final.timeouts[|r.timeouts|].eventId;
      assert NoPutFor(steps, id);
      NoHookWithoutEntry(cleared, steps, id);
      assert false;
    }
  }

  /**
    Overwriting an id keeps both scheduled tasks. The first one evicts the
    newer value and reports the OLD payload's class; the second then finds
    nothing and calls no hook.
   */
  lemma OverwriteThenExpiry(r: Registry, id: Long, first: Interaction, second: Interaction)
    ensures var overwritten := AfterPut(AfterPut(r, id, first), id, second);
      var t1 := Timer(id, first.runtimeType.name);
      var t2 := Timer(id, second.runtimeType.name);
      && overwritten.interactions[id] == second
      && t1 in overwritten.pending
      && var evicted := AfterExpiry(overwritten, t1);
      && id !in evicted.interactions
      && evicted.timeouts == r.timeouts + [t1]
      && t2 in evicted.pending
      && AfterExpiry(evicted, t2).timeouts == evicted.timeouts
  {
    var t1 := Timer(id, first.runtimeType.name);
    var t2 := Timer(id, second.runtimeType.name);
    var overwritten := AfterPut(AfterPut(r, id, first), id, second);
    assert overwritten.pending == r.pending + multiset{t1} + multiset{t2};
    assert (r.pending + multiset{t1} + multiset{t2}) - multiset{t1} == r.pending + multiset{t2};
  }

  /** `register` of commands one after the other: each command's class maps to the command. */
  function RegisterAll(registered: map<ClassName, CommandData>, commands: seq<CommandData>): (m: map<ClassName, CommandData>)
    ensures (forall c :: c in registered ==> registered[c].runtimeType.name == c) ==>
      forall c :: c in m ==> m[c].runtimeType.name == c
    decreases |commands|
  {
    if commands == [] then registered
    else
      var last := commands[|commands| - 1];
      RegisterAll(registered, commands[..|commands| - 1])[last.runtimeType.name := last]
  }

  /** Last one wins: a class maps to the last command of that class. */
  lemma {:induction false} RegisterLastOneWins(registered: map<ClassName, CommandData>, commands: seq<CommandData>, i: nat)
    requires i < |commands|
    requires forall j :: i < j < |commands| ==> commands[j].runtimeType.name != commands[i].runtimeType.name
    ensures commands[i].runtimeType.name in RegisterAll(registered, commands)
    ensures RegisterAll(registered, commands)[commands[i].runtimeType.name] == commands[i]
    decreases |commands|
  {
    if i < |commands| - 1 {
      RegisterLastOneWins(registered, commands[..|commands| - 1], i);
    }
  }

  /** A class no command has keeps its earlier registration, or stays unregistered. */
  lemma {:induction false} RegisterKeepsOthers(registered: map<ClassName, CommandData>, commands: seq<CommandData>, c: ClassName)
    requires forall j :: 0 <= j < |commands| ==> commands[j].runtimeType.name != c
    ensures c in RegisterAll(registered, commands) <==> c in registered
    ensures c in registered ==> RegisterAll(registered, commands)[c] == registered[c]
    decreases |commands|
  {
    if commands != [] {
      RegisterKeepsOthers(registered, commands[..|commands| - 1], c);
    }
  }

  /** The `PluginSlashCommand`s `register` creates, one per command, in order. */
  function SlashEntries(plugin: string, guildID: string, commands: seq<CommandData>): (entries: seq<SlashEntry>)
    ensures |entries| == |commands|
    ensures forall i :: 0 <= i < |commands| ==> entries[i] == SlashEntry(plugin, commands[i], guildID)
    decreases |commands|
  {
    if commands == [] then []
    else SlashEntries(plugin, guildID, commands[..|commands| - 1]) + [SlashEntry(plugin, commands[|commands| - 1], guildID)]
  }

  /** One more command registers one more class mapping. */
  lemma RegisterAllExtend(registered: map<ClassName, CommandData>, commands: seq<CommandData>, i: nat)
    requires i < |commands|
    ensures RegisterAll(registered, commands[..i + 1])
      == RegisterAll(registered, commands[..i])[commands[i].runtimeType.name := commands[i]]
  {
    assert commands[..i + 1][..i] == commands[..i];
  }

  /** One more command adds one more `PluginSlashCommand`. */
  lemma SlashEntriesExtend(plugin: string, guildID: string, commands: seq<CommandData>, i: nat)
    requires i < |commands|
    ensures multiset(SlashEntries(plugin, guildID, commands[..i + 1]))
      == multiset(SlashEntries(plugin, guildID, commands[..i])) + multiset{SlashEntry(plugin, commands[i], guildID)}
  {
    assert commands[..i + 1][..i] == commands[..i];
  }

  /** The same, on top of the `PluginSlashCommand`s already registered. */
  lemma SlashEntriesAccumulate(base: multiset<SlashEntry>, plugin: string, guildID: string, commands: seq<CommandData>, i: nat)
    requires i < |commands|
    ensures base + multiset(SlashEntries(plugin, guildID, commands[..i + 1]))
      == (base + multiset(SlashEntries(plugin, guildID, commands[..i]))) + multiset{SlashEntry(plugin, commands[i], guildID)}
  {
    SlashEntriesExtend(plugin, guildID, commands, i);
  }

  /** The channel and id of a `SlashCommandEvent`, as the provider reads them. */
  datatype SlashEvent = SlashEvent(idLong: Long, unknownChannel: bool)

  /** How `onSlashCommand` ends when it does not throw. */
  datatype SlashOutcome =
    | Cancelled                                                  // unknown channel, cancelled by the hook
    | Triggered(command: CommandData, payload: Option<Interaction>)  // the resolved command is triggered

  /** The provider: the interaction registry and the registered slash commands. */
  class CommandProvider {
    /** The plugin `getPlugin()` returns, by name. */
    const pluginName: string
    var interactions: map<Long, Interaction>
    /** The expiry tasks scheduled and not yet run. */
    var pending: multiset<Timer>
    /** The calls of `onInteractionTimeout` so far (the default hook does nothing else). */
    ghost var timeouts: seq<Timer>
    var registered: map<ClassName, CommandData>
    var commandSet: multiset<SlashEntry>

    /** Every registered class maps to a command of that class. */
    predicate Valid()
      reads this
    {
      forall c :: c in registered ==> registered[c].runtimeType.name == c
    }

    /** The registry part of the state. */
    ghost function State(): Registry
      reads this
    {
      Registry(interactions, pending, timeouts)
    }

    constructor(pluginName: string)
      ensures Valid()
      ensures this.pluginName == pluginName
      ensures interactions == map[] && pending == multiset{} && timeouts == []
      ensures registered == map[] && commandSet == multiset{}
    {
      this.pluginName := pluginName;
      interactions := map[];
      pending := multiset{};
      timeouts := [];
      registered := map[];
      commandSet := multiset{};
    }

    /** `getPayload(eventID)`: the stored payload, or null. */
    function GetPayload(eventID: Long): (p: Option<Interaction>)
      reads this
      ensures p.Some? <==> eventID in interactions
      ensures p.Some? ==> p.value == interactions[eventID]
    {
      if eventID in interactions then Some(interactions[eventID]) else None
    }

    /**
      `getAs(interaction, eventID)`: null when nothing is stored, the payload
      when it is an instance of the requested class, else ClassCastException.
     */
    function GetAs(interaction: ClassName, eventID: Long): (r: Result<Option<Interaction>>)
      reads this
      ensures r == Ok(None) <==> eventID !in interactions
      ensures r.Ok? && r.value.Some? <==>
        eventID in interactions && interactions[eventID].runtimeType.InstanceOf(interaction)
      ensures r.Ok? && r.value.Some? ==> r.value.value == interactions[eventID]
      ensures r.Err? ==> r.error == ClassCast
    {
      var payload := GetPayload(eventID);
      if payload.None? then Ok(None)
      else if payload.value.runtimeType.InstanceOf(interaction) then Ok(Some(payload.value))
      else Err(ClassCast)
    }

    /** `putPayload(eventID, payload)`: store, replacing any earlier payload, and schedule the expiry. */
    method PutPayload(eventID: Long, payload: Interaction)
      modifies this
      ensures State() == AfterPut(old(State()), eventID, payload)
      ensures GetAs(payload.runtimeType.name, eventID) == Ok(Some(payload))
      ensures registered == old(registered) && commandSet == old(commandSet)
    {
      interactions := interactions[eventID := payload];
      pending := pending + multiset{Timer(eventID, payload.runtimeType.name)};
    }

    /**
      The scheduled task of timer t, 15 minutes after its put: remove the
      entry, and call the hook with the captured class only if one was there.
     */
    method RunExpiry(t: Timer)
      requires t in pending
      modifies this
      ensures State() == AfterExpiry(old(State()), t)
      ensures GetPayload(t.eventId) == None
      ensures registered == old(registered) && commandSet == old(commandSet)
    {
      pending := pending - multiset{t};
      if t.eventId in interactions {
        interactions := interactions - {t.eventId};
        timeouts := timeouts + [t];
      }
    }

    /** `removeInteraction(eventID)`. */
    method RemoveInteraction(eventID: Long)
      modifies this
      ensures State() == AfterRemove(old(State()), eventID)
      ensures GetPayload(eventID) == None
      ensures registered == old(registered) && commandSet == old(commandSet)
    {
      interactions := interactions - {eventID};
    }

    /** `clearInteractions()`. */
    method ClearInteractions()
      modifies this
      ensures State() == AfterClear(old(State()))
      ensures registered == old(registered) && commandSet == old(commandSet)
    {
      interactions := map[];
    }

    /** `register(guildID, commands...)`: one `PluginSlashCommand` and one class mapping per command, in order. */
    method Register(guildID: string, commands: seq<CommandData>)
      requires Valid()
      modifies this
      ensures Valid()
      ensures registered == RegisterAll(old(registered), commands)
      ensures commandSet == old(commandSet) + multiset(SlashEntries(pluginName, guildID, commands))
      ensures State() == old(State())
    {
      var classes, entries := RegisterLoop(pluginName, guildID, registered, commandSet, commands);
      registered := classes;
      commandSet := entries;
    }

    /**
      The loop of `register`, over the two collections as values: one
      `PluginSlashCommand` added and one class mapped per command, in order.
     */
    static method RegisterLoop(plugin: string, guildID: string, registered: map<ClassName, CommandData>,
                               commandSet: multiset<SlashEntry>, commands: seq<CommandData>)
      returns (classes: map<ClassName, CommandData>, entries: multiset<SlashEntry>)
      ensures classes == RegisterAll(registered, commands)
      ensures entries == commandSet + multiset(SlashEntries(plugin, guildID, commands))
    {
      classes := registered;
      entries := commandSet;
      var i := 0;
      while i < |commands|
        invariant 0 <= i <= |commands|
        invariant classes == RegisterAll(registered, commands[..i])
        invariant entries == commandSet + multiset(SlashEntries(plugin, guildID, commands[..i]))
      {
        var command := commands[i];
        RegisterAllExtend(registered, commands, i);
        SlashEntriesAccumulate(commandSet, plugin, guildID, commands, i);
        entries := entries + multiset{SlashEntry(plugin, command, guildID)};
        classes := classes[command.runtimeType.name := command];
        i := i + 1;
      }
      assert commands[..|commands|] == commands;
    }

    /** `clearCommands()`: both collections become empty. */
    method ClearCommands()
      modifies this
      ensures Valid()
      ensures registered == map[] && commandSet == multiset{}
      ensures State() == old(State())
    {
      registered := map[];
      commandSet := multiset{};
    }

    /**
      `fromClass(command)`: the command registered for the class, or
      IllegalStateException when there is none. The cast cannot fail while
      `Valid()` holds.
     */
    function FromClass(command: ClassName): (r: Result<CommandData>)
      reads this
      ensures command !in registered ==> r == Err(IllegalState)
      ensures r.Ok? ==> command in registered && r.value == registered[command]
      ensures r.Ok? ==> r.value.runtimeType.InstanceOf(command)
      ensures Valid() ==> (r.Ok? <==> command in registered)
    {
      if command !in registered then Err(IllegalState)
      else
        var slashCommand := registered[command];
        if slashCommand.runtimeType.InstanceOf(command) then Ok(slashCommand) else Err(ClassCast)
    }

    /**
      `onSlashCommand(event, ephemeral, type, resolver, payload)` with the
      supplier's result `payload` and `cancelOnUnknown` the answer of the
      `ifUnknownChannel` hook. The payload is stored only when non-null, and
      before `fromClass`, so it stays stored when `fromClass` throws.
     */
    method OnSlashCommand(event: SlashEvent, cancelOnUnknown: bool, commandType: ClassName, payload: Option<Interaction>)
      returns (r: Result<SlashOutcome>)
      requires Valid()
      modifies this
      ensures event.unknownChannel && cancelOnUnknown ==> r == Ok(Cancelled) && State() == old(State())
      ensures !(event.unknownChannel && cancelOnUnknown) ==>
        && (payload.Some? ==> State() == AfterPut(old(State()), event.idLong, payload.value))
        && (payload.None? ==> State() == old(State()))
        && (r.Ok? <==> commandType in registered)
        && (r.Ok? ==> r.value == Triggered(registered[commandType], payload))
        && (r.Err? ==> r.error == IllegalState)
      ensures registered == old(registered) && commandSet == old(commandSet)
    {
      if event.unknownChannel && cancelOnUnknown {
        return Ok(Cancelled);
      }
      if payload.Some? {
        PutPayload(event.idLong, payload.value);
      }
      var command := FromClass(commandType);
      if command.Err? {
        return Err(command.error);
      }
      return Ok(Triggered(command.value, payload));
    }
  }
}
