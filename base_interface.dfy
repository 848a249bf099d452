/** The bridge between one Modo item and its Canvas graph. A process-wide
    registry maps instance ids to instances; the shared runtime (client,
    host, AST manager, command stack) is built by the construction that
    finds the registry empty and torn down by the destruction that leaves
    it empty. Port events of the graph become user-channel commands on the
    Modo item. */
module BaseInterface {
  import opened Wrappers
  import opened Numerics
  import ModoTools
  import PortReaders

  // ---------------------------------------------------------------------
  // Port type to channel type

  datatype ChannelType = ChannelType(dataType: string, structType: string)

  const EmptyTypeError: string := "port.getDataType() == \"\""

  function NotImplementedError(portType: string): string {
    "unable to create user channel, type \"" + portType + "\" not yet implemented"
  }

  const ChannelDataTypes: set<string> := {"boolean", "integer", "float", "string", "quaternion", "matrix"}
  const VectorTypes: set<string> := {"Vec2", "Vec3", "RGB", "RGBA"}

  /** The closed table `onPortInserted` uses to pick the user channel a new
      port gets. */
  function ChannelTypeFor(portType: string): (r: Result<ChannelType, string>)
    ensures portType == "" ==> r == Err(EmptyTypeError)
    ensures portType != "" && r.Err? ==> r.error == NotImplementedError(portType)
    ensures r.Ok? ==> r.value.dataType in ChannelDataTypes
    ensures r.Ok? && r.value.structType != "" ==> r.value.dataType == "float" && portType in VectorTypes
    ensures portType in VectorTypes ==> r.Ok? && r.value.structType != ""
  {
    if portType == "" then Err(EmptyTypeError)
    else if portType == "Boolean" then Ok(ChannelType("boolean", ""))
    else if portType == "Integer" || portType in PortReaders.IntegerTypes then Ok(ChannelType("integer", ""))
    else if portType == "Scalar" || portType in PortReaders.FloatTypes then Ok(ChannelType("float", ""))
    else if portType == "String" then Ok(ChannelType("string", ""))
    else if portType == "Quat" then Ok(ChannelType("quaternion", ""))
    else if portType == "Mat44" then Ok(ChannelType("matrix", ""))
    else if portType == "Vec2" then Ok(ChannelType("float", "vecXY"))
    else if portType == "Vec3" then Ok(ChannelType("float", "vecXYZ"))
    else if portType == "RGB" then Ok(ChannelType("float", "vecRGB"))
    else if portType == "RGBA" then Ok(ChannelType("float", "vecRGBA"))
    else Err(NotImplementedError(portType))
  }

  /** The scalar rows of the table, read back: which port types get which
      plain channel. The table knows two type names, "Integer" and
      "Scalar", that the strict port readers do not. */
  lemma ScalarChannelTypes(t: string)
    ensures ChannelTypeFor(t) == Ok(ChannelType("boolean", "")) <==> t == "Boolean"
    ensures ChannelTypeFor(t) == Ok(ChannelType("integer", "")) <==> t in PortReaders.IntegerTypes || t == "Integer"
    ensures ChannelTypeFor(t) == Ok(ChannelType("float", "")) <==> t in PortReaders.FloatTypes || t == "Scalar"
    ensures ChannelTypeFor(t) == Ok(ChannelType("string", "")) <==> t == "String"
  {
  }

  /** The remaining rows: quaternion and matrix channels, and the float
      channels whose struct annotation groups them into a vector or a
      colour. */
  lemma StructuredChannelTypes(t: string)
    ensures ChannelTypeFor(t) == Ok(ChannelType("quaternion", "")) <==> t == "Quat"
    ensures ChannelTypeFor(t) == Ok(ChannelType("matrix", "")) <==> t == "Mat44"
    ensures ChannelTypeFor(t) == Ok(ChannelType("float", "vecXY")) <==> t == "Vec2"
    ensures ChannelTypeFor(t) == Ok(ChannelType("float", "vecXYZ")) <==> t == "Vec3"
    ensures ChannelTypeFor(t) == Ok(ChannelType("float", "vecRGB")) <==> t == "RGB"
    ensures ChannelTypeFor(t) == Ok(ChannelType("float", "vecRGBA")) <==> t == "RGBA"
  {
  }

  /** A port typed "Integer" or "Scalar" gets a user channel, but no
      numeric port reader accepts it, strict or not. */
  lemma AliasedTypesUnreadable(port: PortReaders.Port, strict: bool)
    requires port.valid && !port.value.Unavailable?
    requires port.dataType == "Integer" || port.dataType == "Scalar"
    ensures ChannelTypeFor(port.dataType).Ok?
    ensures PortReaders.GetPortValueAsBoolean(port, strict).code == -1
    ensures PortReaders.GetPortValueAsInteger(port, strict).code == -1
    ensures PortReaders.GetPortValueAsFloat(port, strict).code == -1
  {
  }

  // ---------------------------------------------------------------------
  // Port events

  const ItemFailedError: string := "item((ILxUnknownID)m_item_obj_dfgModoIM) failed"

  /** What a port event leaves behind: the error messages it logs and the
      commands it gets executed, oldest first. */
  datatype Effect = Effect(logged: seq<string>, issued: seq<string>)

  /** What a handler leaves behind after running an adapter operation:
      the commands it executed, and its error text logged when it failed. */
  function Report(r: ModoTools.Run): Effect {
    Effect(if r.ok then [] else [r.err], r.executed)
  }

  /** `onPortInserted`: a new port gets a user channel of its type. A
      failure is logged, even one whose message is empty. */
  function PortInsertedEffect(item: Option<ModoTools.Item>, port: PortReaders.Port, parses: string -> bool): (e: Effect)
    ensures item.None? ==> e == Effect([ItemFailedError], [])
    ensures item.Some? && ChannelTypeFor(port.dataType).Err? ==> e == Effect([ChannelTypeFor(port.dataType).error], [])
    ensures |e.logged| + |e.issued| == 1
    ensures e.issued != [] ==> (
      && item.Some? && ChannelTypeFor(port.dataType).Ok?
      && var ct := ChannelTypeFor(port.dataType).value;
      && e.issued == [ModoTools.CreateCommand(port.name, ct.dataType, ct.structType, item.value.uniqueName)])
    ensures item.Some? && ChannelTypeFor(port.dataType).Ok? && port.name == "" ==>
      e == Effect([ModoTools.EmptyNameError], [])
    ensures item.Some? && ChannelTypeFor(port.dataType).Ok? && port.name != "" && ModoTools.HasChannel(item, port.name).Resolved? ==>
      e == Effect([ModoTools.AlreadyExistsError(port.name)], [])
    ensures item.Some? && ChannelTypeFor(port.dataType).Ok? && port.name != "" && ModoTools.HasChannel(item, port.name).Unresolved? ==>
      var ct := ChannelTypeFor(port.dataType).value;
      var create := ModoTools.CreateCommand(port.name, ct.dataType, ct.structType, item.value.uniqueName);
      e == if parses(create) then Effect([], [create]) else Effect([ModoTools.ParseFailedError(create)], [])
  {
    if item.None? then Effect([ItemFailedError], [])
    else match ChannelTypeFor(port.dataType)
      case Err(msg) => Effect([msg], [])
      case Ok(ct) =>
        Report(ModoTools.Perform(ModoTools.CreatePlan(item, port.name, ct.dataType, ct.structType), parses))
  }

  /** `onPortRemoved`: the port's user channel is deleted. A port without
      a channel logs the empty message `HasChannel` leaves. */
  function PortRemovedEffect(item: Option<ModoTools.Item>, name: string, parses: string -> bool): (e: Effect)
    ensures item.None? ==> e == Effect([ItemFailedError], [])
    ensures item.Some? && name != "" && ModoTools.HasChannel(item, name).Unresolved? ==> e == Effect([""], [])
    ensures e.logged == [] <==> |e.issued| == 2
    ensures |e.logged| <= 1
    ensures e.issued != [] ==> (
      && item.Some? && ModoTools.HasChannel(item, name).Resolved?
      && e.issued <= [ModoTools.SelectCommand(item.value.uniqueName, ModoTools.HasChannel(item, name).actual), ModoTools.DeleteCommand])
    ensures item.Some? && name == "" ==> e == Effect([ModoTools.EmptyNameError], [])
    ensures item.Some? && name != "" && ModoTools.HasChannel(item, name).Resolved? ==>
      var select := ModoTools.SelectCommand(item.value.uniqueName, ModoTools.HasChannel(item, name).actual);
      e == if !parses(select) then Effect([ModoTools.ParseFailedError(select)], [])
           else if !parses(ModoTools.DeleteCommand) then Effect([ModoTools.ParseFailedError(ModoTools.DeleteCommand)], [select])
           else Effect([], [select, ModoTools.DeleteCommand])
  {
    if item.None? then Effect([ItemFailedError], [])
    else
      var r := ModoTools.Perform(ModoTools.DeletePlan(item, name), parses);
      if name != "" && ModoTools.HasChannel(item, name).Resolved? then
        ModoTools.ChainOfTwo(ModoTools.SelectCommand(item.value.uniqueName, ModoTools.HasChannel(item, name).actual),
                             ModoTools.DeleteCommand, parses);
        Report(r)
      else
        Report(r)
  }

  /** `onPortRenamed`: the port's user channel follows the new name. */
  function PortRenamedEffect(item: Option<ModoTools.Item>, oldName: string, newName: string, parses: string -> bool): (e: Effect)
    ensures item.None? ==> e == Effect([ItemFailedError], [])
    ensures e.logged == [] <==> |e.issued| == 3
    ensures |e.logged| <= 1
    ensures e.issued != [] ==> (
      && item.Some? && ModoTools.HasChannel(item, oldName).Resolved? && ModoTools.HasChannel(item, newName).Unresolved?
      && e.issued <= [
        ModoTools.SelectCommand(item.value.uniqueName, ModoTools.HasChannel(item, oldName).actual),
        ModoTools.NameCommand(newName),
        ModoTools.UserNameCommand(newName)])
    ensures item.Some? && (oldName == "" || newName == "") ==> e == Effect([ModoTools.EmptyNameError], [])
    ensures item.Some? && oldName != "" && newName != "" && ModoTools.HasChannel(item, oldName).Unresolved? ==>
      e == Effect([""], [])
    ensures (
      && item.Some? && oldName != "" && newName != ""
      && ModoTools.HasChannel(item, oldName).Resolved? && ModoTools.HasChannel(item, newName).Resolved?)
      ==> e == Effect([ModoTools.AlreadyExistsError(newName)], [])
    ensures (
      && item.Some? && oldName != "" && newName != ""
      && ModoTools.HasChannel(item, oldName).Resolved? && ModoTools.HasChannel(item, newName).Unresolved?)
      ==>
      var select := ModoTools.SelectCommand(item.value.uniqueName, ModoTools.HasChannel(item, oldName).actual);
      var name := ModoTools.NameCommand(newName);
      var userName := ModoTools.UserNameCommand(newName);
      e == if !parses(select) then Effect([ModoTools.ParseFailedError(select)], [])
           else if !parses(name) then Effect([ModoTools.ParseFailedError(name)], [select])
           else if !parses(userName) then Effect([ModoTools.ParseFailedError(userName)], [select, name])
           else Effect([], [select, name, userName])
  {
    if item.None? then Effect([ItemFailedError], [])
    else
      var r := ModoTools.Perform(ModoTools.RenamePlan(item, oldName, newName), parses);
      if oldName != "" && newName != "" && ModoTools.HasChannel(item, oldName).Resolved? then
        ModoTools.ChainOfThree(ModoTools.SelectCommand(item.value.uniqueName, ModoTools.HasChannel(item, oldName).actual),
                               ModoTools.NameCommand(newName), ModoTools.UserNameCommand(newName), parses);
        Report(r)
      else
        Report(r)
  }

  // ---------------------------------------------------------------------
  // Shared runtime and its setup

  /** A heap object held through a raw pointer: none, allocated, or
      deleted while the pointer still holds its address. */
  datatype Handle = Null | Live | Dangling

  datatype Client = NoClient | Client(extensions: seq<string>)

  datatype Binding = Unbound | NewGraph | FromJSON(json: string)

  /** The steps of the shared-runtime setup, in the order they run. */
  datatype Step = CreateClient | LoadMath | LoadGeometry | CreateHost | CreateBinding | CreateManager | SetGraph

  function StepIndex(s: Step): nat {
    match s
    case CreateClient => 0
    case LoadMath => 1
    case LoadGeometry => 2
    case CreateHost => 3
    case CreateBinding => 4
    case CreateManager => 5
    case SetGraph => 6
  }

  /** How the setup went: through, or an engine exception at one step. */
  datatype SetupOutcome = Completed | ThrowsAt(step: Step, desc: string)

  predicate Completes(o: SetupOutcome, s: Step) {
    o.Completed? || StepIndex(s) < StepIndex(o.step)
  }

  /** `delete p`: deleting a dangling pointer is a double delete. The
      destructor as written leaves the pointer as it was; `nulled` is the
      evidently intended variant that resets it to NULL. */
  datatype Deletion = Deletion(after: Handle, doubleDelete: bool)

  function Delete(h: Handle, nulled: bool): (d: Deletion)
    ensures d.doubleDelete <==> h.Dangling?
    ensures nulled ==> d.after.Null?
    ensures !nulled ==> (d.after.Null? <==> h.Null?)
  {
    match h
    case Null => Deletion(Null, false)
    case Live => Deletion(if nulled then Null else Dangling, false)
    case Dangling => Deletion(if nulled then Null else Dangling, true)
  }

  /** The pointer the setup step `creates` assigns, after one setup. */
  function AfterSetup(h: Handle, o: SetupOutcome, creates: Step): Handle {
    if Completes(o, creates) then Live else h
  }

  /** The client after the first three setup steps: created, then the
      Math and the Geometry extensions loaded. */
  function SetupClient(c: Client, o: SetupOutcome): (r: Client)
    ensures r.Client? <==> Completes(o, CreateClient) || c.Client?
    ensures Completes(o, CreateClient) ==> r.extensions <= ["Math", "Geometry"]
    ensures Completes(o, LoadGeometry) ==> r == Client(["Math", "Geometry"])
    ensures !Completes(o, CreateClient) ==> r == c
  {
    if Completes(o, LoadGeometry) then Client(["Math", "Geometry"])
    else if Completes(o, LoadMath) then Client(["Math"])
    else if Completes(o, CreateClient) then Client([])
    else c
  }

  /** Whether some teardown double-deletes the pointer created at step
      `creates`, over successive lifetimes of the registry, each starting
      with a setup that goes as `outcomes` says and ending in teardown. */
  function DoubleDeletes(h: Handle, outcomes: seq<SetupOutcome>, creates: Step, nulled: bool): bool
    decreases |outcomes|
  {
    if outcomes == [] then false
    else
      var d := Delete(AfterSetup(h, outcomes[0], creates), nulled);
      d.doubleDelete || DoubleDeletes(d.after, outcomes[1..], creates, nulled)
  }

  /** As written, a registry that was set up and torn down once, then set
      up again by a construction that throws before re-creating the host
      (or the manager), deletes the old host (manager) a second time at
      its next teardown. */
  lemma DoubleDeleteAsWritten(o: SetupOutcome, creates: Step)
    requires creates == CreateHost || creates == CreateManager
    requires !Completes(o, creates)
    ensures DoubleDeletes(Null, [Completed, o], creates, false)
  {
    var d := Delete(AfterSetup(Null, Completed, creates), false);
    assert d.after == Dangling;
    assert AfterSetup(d.after, o, creates) == Dangling;
  }

  /** With the pointer reset after delete, no sequence of lifetimes ever
      deletes it twice. */
  lemma {:induction false} NulledNeverDoubleDeletes(outcomes: seq<SetupOutcome>, creates: Step)
    ensures !DoubleDeletes(Null, outcomes, creates, true)
    decreases |outcomes|
  {
    if outcomes != [] {
      NulledNeverDoubleDeletes(outcomes[1..], creates);
    }
  }

  /** The static members of the bridge: the registry and the shared
      runtime. */
  class Runtime {
    var instances: map<nat, ItemBridge>
    /** The next id to hand out; an `unsigned int`. */
    var maxId: nat
    var client: Client
    var host: Handle
    var manager: Handle
    var stack: seq<string>
    /** What `logErrorFunc` has been given, oldest first. */
    var errorLog: seq<string>
    /** Constructions so far, setups run, teardowns run. */
    ghost var constructed: nat
    ghost var setups: nat
    ghost var teardowns: nat

    ghost predicate Valid()
      reads this
    {
      && maxId < TwoTo32
      && (forall k :: k in instances ==> instances[k].id == k)
      && (constructed < TwoTo32 ==> maxId == constructed && forall k :: k in instances ==> k < maxId)
      && (instances == map[] ==> client.NoClient? && host.Null? && manager.Null? && stack == [])
      && !host.Dangling? && !manager.Dangling?
      && setups == teardowns + (if instances == map[] then 0 else 1)
    }

    /** The state right after the last instance has been erased, before
        the teardown. */
    ghost predicate LastOneOut()
      reads this
    {
      && instances == map[]
      && maxId < TwoTo32
      && (constructed < TwoTo32 ==> maxId == constructed)
      && !host.Dangling? && !manager.Dangling?
      && setups == teardowns + 1
    }

    /** The state before the first construction. */
    constructor ()
      ensures Valid()
      ensures instances == map[] && maxId == 0 && errorLog == [] && constructed == 0
    {
      instances := map[];
      maxId := 0;
      client := NoClient;
      host := Null;
      manager := Null;
      stack := [];
      errorLog := [];
      constructed := 0;
      setups := 0;
      teardowns := 0;
    }

    /** `getFromId`: the instance registered under `id`, or NULL. */
    function GetFromId(id: nat): (r: Option<ItemBridge>)
      reads this
      ensures r.Some? <==> id in instances
      ensures r.Some? ==> r.value == instances[id]
      ensures Valid() && r.Some? ==> r.value.id == id
    {
      if id in instances then Some(instances[id]) else None
    }

    method LogError(message: string)
      modifies this`errorLog
      ensures errorLog == old(errorLog) + [message]
    {
      errorLog := errorLog + [message];
    }

    /** The setup the first construction runs, up to the step that throws;
        the exception's description is logged. Returns the instance's
        binding and the graph set on its view. */
    method Setup(o: SetupOutcome) returns (binding: Binding, view: Option<Binding>)
      requires Valid() && instances == map[]
      modifies this
      ensures host == AfterSetup(old(host), o, CreateHost)
      ensures manager == AfterSetup(old(manager), o, CreateManager)
      ensures client == SetupClient(old(client), o)
      ensures binding == (if Completes(o, CreateBinding) then NewGraph else Unbound)
      ensures view == (if Completes(o, SetGraph) then Some(NewGraph) else None)
      ensures errorLog == old(errorLog) + (if o.ThrowsAt? then [o.desc] else [])
      ensures instances == old(instances) && maxId == old(maxId) && stack == old(stack)
      ensures constructed == old(constructed) && teardowns == old(teardowns) && setups == old(setups) + 1
    {
      client := SetupClient(client, o);
      host := AfterSetup(host, o, CreateHost);
      binding := if Completes(o, CreateBinding) then NewGraph else Unbound;
      manager := AfterSetup(manager, o, CreateManager);
      view := if Completes(o, SetGraph) then Some(binding) else None;
      if o.ThrowsAt? {
        LogError(o.desc);
      }
      setups := setups + 1;
    }

    /** The teardown of the last destruction: clear the stack, delete the
        manager and the host, reset the client. */
    method Teardown()
      requires LastOneOut()
      modifies this
      ensures Valid()
      ensures stack == [] && manager.Null? && host.Null? && client.NoClient?
      ensures instances == old(instances) && maxId == old(maxId) && errorLog == old(errorLog)
      ensures constructed == old(constructed) && setups == old(setups) && teardowns == old(teardowns) + 1
    {
      stack := [];
      manager := Delete(manager, true).after;
      host := Delete(host, true).after;
      client := NoClient;
      teardowns := teardowns + 1;
    }
  }

  /** One bridge instance. */
  class ItemBridge {
    const id: nat
    var binding: Binding
    /** The graph set on this instance's view. */
    var view: Option<Binding>
    /** The Modo item the instance drives; NULL until the host sets it. */
    var item: Option<ModoTools.Item>

    /** Takes the next id, runs the setup if no instance is registered,
        and registers itself under its id. The registration does not
        replace an entry already under that id, which can only happen once
        the id counter has wrapped. */
    constructor (rt: Runtime, setup: SetupOutcome)
      requires rt.Valid()
      modifies rt
      ensures rt.Valid()
      ensures id == old(rt.maxId) && rt.maxId == (old(rt.maxId) + 1) % TwoTo32
      ensures old(rt.constructed) < TwoTo32 ==> id == old(rt.constructed) && id !in old(rt.instances)
      ensures rt.instances == if id in old(rt.instances) then old(rt.instances) else old(rt.instances)[id := this]
      ensures rt.constructed == old(rt.constructed) + 1
      ensures rt.teardowns == old(rt.teardowns)
      ensures rt.setups == old(rt.setups) + (if old(rt.instances) == map[] then 1 else 0)
      ensures item.None? && rt.stack == old(rt.stack)
      ensures old(rt.instances) != map[] ==> (
        && binding.Unbound? && view.None?
        && rt.client == old(rt.client) && rt.host == old(rt.host) && rt.manager == old(rt.manager)
        && rt.errorLog == old(rt.errorLog))
      ensures old(rt.instances) == map[] ==> (
        && rt.instances == map[id := this]
        && rt.host == AfterSetup(Null, setup, CreateHost)
        && rt.manager == AfterSetup(Null, setup, CreateManager)
        && rt.client == SetupClient(NoClient, setup)
        && binding == (if Completes(setup, CreateBinding) then NewGraph else Unbound)
        && view == (if Completes(setup, SetGraph) then Some(NewGraph) else None)
        && rt.errorLog == old(rt.errorLog) + (if setup.ThrowsAt? then [setup.desc] else []))
    {
      id := rt.maxId;
      item := None;
      rt.maxId := (rt.maxId + 1) % TwoTo32;
      rt.constructed := rt.constructed + 1;
      var b, v := Unbound, None;
      if rt.instances == map[] {
        b, v := rt.Setup(setup);
      }
      binding, view := b, v;
      new;
      if id !in rt.instances {
        rt.instances := rt.instances[id := this];
      }
    }

    /** The destructor: drops the binding, erases the entry under its id,
        and tears the runtime down exactly when that leaves the registry
        empty. The manager and host pointers are reset after delete, so a
        later teardown never deletes them again. */
    method Dispose(rt: Runtime)
      requires rt.Valid()
      modifies this, rt
      ensures rt.Valid()
      ensures binding.Unbound? && view == old(view) && item == old(item)
      ensures rt.instances == old(rt.instances) - {id}
      ensures rt.maxId == old(rt.maxId) && rt.errorLog == old(rt.errorLog)
      ensures rt.constructed == old(rt.constructed) && rt.setups == old(rt.setups)
      ensures id in old(rt.instances) && rt.instances == map[] ==> (
        && rt.stack == [] && rt.manager.Null? && rt.host.Null? && rt.client.NoClient?
        && rt.teardowns == old(rt.teardowns) + 1)
      ensures !(id in old(rt.instances) && rt.instances == map[]) ==> (
        && rt.stack == old(rt.stack) && rt.manager == old(rt.manager) && rt.host == old(rt.host)
        && rt.client == old(rt.client) && rt.teardowns == old(rt.teardowns))
    {
      binding := Unbound;
      if id in rt.instances {
        rt.instances := rt.instances - {id};
        if rt.instances == map[] {
          rt.Teardown();
        }
      }
    }

    /** `getJSON`: the graph's export, or "" after logging why the export
        threw. */
    method GetJSON(rt: Runtime, exportGraph: Binding -> Result<string, string>) returns (json: string)
      modifies rt`errorLog
      ensures exportGraph(binding).Ok? ==> json == exportGraph(binding).value && rt.errorLog == old(rt.errorLog)
      ensures exportGraph(binding).Err? ==> json == "" && rt.errorLog == old(rt.errorLog) + [exportGraph(binding).error]
    {
      var exported := exportGraph(binding);
      if exported.Err? {
        rt.LogError(exported.error);
        return "";
      }
      json := exported.value;
    }

    /** `setFromJSON`: a binding is created from the JSON through the host,
        then its graph is set on the view. The binding is replaced only once
        the creation has returned; an exception at either step is logged. */
    method SetFromJSON(rt: Runtime, json: string, outcome: JsonLoad)
      requires rt.host.Live?
      modifies this, rt`errorLog
      ensures outcome.LoadThrows? ==> binding == old(binding) && view == old(view)
      ensures !outcome.LoadThrows? ==> binding == FromJSON(json)
      ensures view == if outcome.Loaded? then Some(FromJSON(json)) else old(view)
      ensures rt.errorLog == old(rt.errorLog) + (if outcome.Loaded? then [] else [outcome.desc])
      ensures item == old(item)
    {
      if outcome.LoadThrows? {
        rt.LogError(outcome.desc);
        return;
      }
      binding := FromJSON(json);
      if outcome.AttachThrows? {
        rt.LogError(outcome.desc);
        return;
      }
      view := Some(binding);
    }

    method OnPortInserted(rt: Runtime, cmds: ModoTools.CommandService, port: PortReaders.Port)
      modifies rt`errorLog, cmds
      ensures var e := PortInsertedEffect(item, port, cmds.parses);
        rt.errorLog == old(rt.errorLog) + e.logged && cmds.executed == old(cmds.executed) + e.issued
    {
      if item.None? {
        rt.LogError(ItemFailedError);
        return;
      }
      var channelType := ChannelTypeFor(port.dataType);
      if channelType.Err? {
        rt.LogError(channelType.error);
        return;
      }
      var ok, err := cmds.CreateUserChannel(item, port.name, channelType.value.dataType, channelType.value.structType);
      if !ok {
        rt.LogError(err);
      }
    }

    method OnPortRemoved(rt: Runtime, cmds: ModoTools.CommandService, port: PortReaders.Port)
      modifies rt`errorLog, cmds
      ensures var e := PortRemovedEffect(item, port.name, cmds.parses);
        rt.errorLog == old(rt.errorLog) + e.logged && cmds.executed == old(cmds.executed) + e.issued
    {
      if item.None? {
        rt.LogError(ItemFailedError);
        return;
      }
      var ok, err := cmds.DeleteUserChannel(item, port.name);
      if !ok {
        rt.LogError(err);
      }
    }

    method OnPortRenamed(rt: Runtime, cmds: ModoTools.CommandService, port: PortReaders.Port, oldName: string)
      modifies rt`errorLog, cmds
      ensures var e := PortRenamedEffect(item, oldName, port.name, cmds.parses);
        rt.errorLog == old(rt.errorLog) + e.logged && cmds.executed == old(cmds.executed) + e.issued
    {
      if item.None? {
        rt.LogError(ItemFailedError);
        return;
      }
      var ok, err := cmds.RenameUserChannel(item, oldName, port.name);
      if !ok {
        rt.LogError(err);
      }
    }
  }

  /** How `setFromJSON` goes: through, an exception from
      `createBindingFromJSON`, or one from `setGraph` after it. */
  datatype JsonLoad = Loaded | LoadThrows(desc: string) | AttachThrows(desc: string)
}
