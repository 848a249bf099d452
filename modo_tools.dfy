/** The host channel adapter: how a Modo item's channels are looked up
    under the vector/colour naming convention, and the command strings
    issued to create, delete and rename a user channel.

    An item is seen as the set of its channel names and its unique name.
    A command is "executed" when the command service parses it; whether
    Modo then carries it out is not reported back (the adapter ignores the
    result of `Execute`), so only the commands executed are modelled, in
    the order they are issued. */
module ModoTools {
  import opened Wrappers

  datatype Item = Item(channels: set<string>, uniqueName: string)

  /** The outcome of `HasChannel`: the channel name actually found, or the
      error text (empty when the channel is simply absent). */
  datatype Lookup = Resolved(actual: string) | Unresolved(err: string)

  const NullItemError: string := "pointer is NULL"
  const EmptyNameError: string := "empty channel name"
  const EmptyDataTypeError: string := "empty dataType"
  const EmptyCommandError: string := "empty command string"

  function AlreadyExistsError(name: string): string {
    "the channel " + name + " already exists"
  }

  function ParseFailedError(command: string): string {
    "cmd_srv.NewCommandFromString() failed for \"" + command + "\""
  }

  /** The names a logical channel may have on a Modo item, in the order
      they are tried: the plain name, then the first component of a
      vector (`.X`), of a colour (`.R`) and of a 2-vector in UV form (`.U`). */
  function Candidates(name: string): seq<string> {
    [name, name + ".X", name + ".R", name + ".U"]
  }

  /** `HasChannel(item, name, actual, err)`: the first candidate name the
      item has. */
  function HasChannel(item: Option<Item>, name: string): (r: Lookup)
    ensures item.None? ==> r == Unresolved(NullItemError)
    ensures item.Some? && name == "" ==> r == Unresolved(EmptyNameError)
    ensures item.Some? && name != "" && r.Unresolved? ==>
      r.err == "" && forall c :: c in Candidates(name) ==> c !in item.value.channels
    ensures r.Resolved? ==> (
      && item.Some? && name != ""
      && exists i :: 0 <= i < 4 && r.actual == Candidates(name)[i] && r.actual in item.value.channels &&
           forall j :: 0 <= j < i ==> Candidates(name)[j] !in item.value.channels)
  {
    match item
    case None => Unresolved(NullItemError)
    case Some(it) =>
      var c := Candidates(name);
      if name == "" then Unresolved(EmptyNameError)
      else if c[0] in it.channels then Resolved(c[0])
      else if c[1] in it.channels then Resolved(c[1])
      else if c[2] in it.channels then Resolved(c[2])
      else if c[3] in it.channels then Resolved(c[3])
      else Unresolved("")
  }

  /** The second overload of `HasChannel` keeps only the verdict. */
  lemma HasChannelResolvesExisting(it: Item, name: string)
    requires name != ""
    ensures HasChannel(Some(it), name).Resolved? <==> exists c :: c in Candidates(name) && c in it.channels
  {
    if HasChannel(Some(it), name).Resolved? {
      var i :| 0 <= i < 4 && HasChannel(Some(it), name).actual == Candidates(name)[i];
      assert Candidates(name)[i] in Candidates(name);
    }
  }

  /** The error text `ExecuteCommand` reports for a command it cannot run. */
  function ExecuteError(command: string): string {
    if command == "" then EmptyCommandError else ParseFailedError(command)
  }

  /** What running a chain of commands did: the commands executed, whether
      all were, and the error text left behind. */
  datatype Run = Run(executed: seq<string>, ok: bool, err: string)

  /** Runs `commands` in order, stopping at the first one that is empty or
      does not parse. */
  function ExecuteChain(commands: seq<string>, parses: string -> bool): (r: Run)
    ensures r.executed <= commands
    ensures r.ok <==> r.executed == commands
    ensures r.ok ==> r.err == ""
    ensures !r.ok ==> var c := commands[|r.executed|];
      (c == "" || !parses(c)) && r.err == ExecuteError(c)
    ensures forall c :: c in r.executed ==> c != "" && parses(c)
  {
    if commands == [] then Run([], true, "")
    else
      var c := commands[0];
      if c == "" || !parses(c) then Run([], false, ExecuteError(c))
      else
        var rest := ExecuteChain(commands[1..], parses);
        Run([c] + rest.executed, rest.ok, rest.err)
  }

  /** The chains the adapter issues, spelled out: each command runs only
      if every command before it did. */
  lemma ChainOfTwo(a: string, b: string, parses: string -> bool)
    ensures ExecuteChain([a, b], parses) ==
      if a == "" || !parses(a) then Run([], false, ExecuteError(a))
      else if b == "" || !parses(b) then Run([a], false, ExecuteError(b))
      else Run([a, b], true, "")
  {
    assert [a, b][1..] == [b];
    assert [b][1..] == [];
  }

  lemma ChainOfThree(a: string, b: string, c: string, parses: string -> bool)
    ensures ExecuteChain([a, b, c], parses) ==
      if a == "" || !parses(a) then Run([], false, ExecuteError(a))
      else if b == "" || !parses(b) then Run([a], false, ExecuteError(b))
      else if c == "" || !parses(c) then Run([a, b], false, ExecuteError(c))
      else Run([a, b, c], true, "")
  {
    assert [a, b, c][1..] == [b, c];
    ChainOfTwo(b, c, parses);
  }

  lemma AppendInOrder(log: seq<string>, a: string, b: string, c: string)
    ensures log + [a] + [b] == log + [a, b]
    ensures log + [a] + [b] + [c] == log + [a, b, c]
  {
  }

  /** What an adapter operation decides before it issues anything: reject
      with an error text, or issue these commands in order. */
  datatype Plan = Reject(err: string) | Issue(commands: seq<string>)

  function Perform(p: Plan, parses: string -> bool): (r: Run)
    ensures p.Reject? ==> r == Run([], false, p.err)
    ensures p.Issue? ==> r == ExecuteChain(p.commands, parses)
  {
    match p
    case Reject(e) => Run([], false, e)
    case Issue(commands) => ExecuteChain(commands, parses)
  }

  function CreateCommand(name: string, dataType: string, structType: string, itemName: string): string {
    "channel.create " + name + " " + dataType + " " + structType + " item:" + itemName
  }

  function SelectCommand(itemName: string, channel: string): string {
    "select.channel {" + itemName + ":" + channel + "} set"
  }

  const DeleteCommand: string := "channel.delete"

  function NameCommand(newName: string): string {
    "channel.name name:" + newName
  }

  function UserNameCommand(newName: string): string {
    "channel.username username:" + newName
  }

  /** `CreateUserChannel`: never creates over a channel that resolves. */
  function CreatePlan(item: Option<Item>, name: string, dataType: string, structType: string): (p: Plan)
    ensures p.Issue? <==> item.Some? && name != "" && dataType != "" && HasChannel(item, name).Unresolved?
    ensures p.Issue? ==> p.commands == [CreateCommand(name, dataType, structType, item.value.uniqueName)]
    ensures item.None? ==> p == Reject(NullItemError)
    ensures item.Some? && name == "" ==> p == Reject(EmptyNameError)
    ensures item.Some? && name != "" && dataType == "" ==> p == Reject(EmptyDataTypeError)
    ensures item.Some? && name != "" && dataType != "" && HasChannel(item, name).Resolved? ==>
      p == Reject(AlreadyExistsError(name))
  {
    if item.None? then Reject(NullItemError)
    else if name == "" then Reject(EmptyNameError)
    else if dataType == "" then Reject(EmptyDataTypeError)
    else if HasChannel(item, name).Resolved? then Reject(AlreadyExistsError(name))
    else Issue([CreateCommand(name, dataType, structType, item.value.uniqueName)])
  }

  /** `DeleteUserChannel`: selects the channel under the name it resolved
      to, then deletes the selection. */
  function DeletePlan(item: Option<Item>, name: string): (p: Plan)
    ensures p.Issue? <==> item.Some? && name != "" && HasChannel(item, name).Resolved?
    ensures p.Issue? ==>
      p.commands == [SelectCommand(item.value.uniqueName, HasChannel(item, name).actual), DeleteCommand]
    ensures item.None? ==> p == Reject(NullItemError)
    ensures item.Some? && name == "" ==> p == Reject(EmptyNameError)
    ensures item.Some? && name != "" && HasChannel(item, name).Unresolved? ==> p == Reject("")
  {
    if item.None? then Reject(NullItemError)
    else if name == "" then Reject(EmptyNameError)
    else match HasChannel(item, name)
      case Unresolved(e) => Reject(e)
      case Resolved(actual) => Issue([SelectCommand(item.value.uniqueName, actual), DeleteCommand])
  }

  /** `RenameUserChannel`: never renames onto a name that already resolves. */
  function RenamePlan(item: Option<Item>, name: string, newName: string): (p: Plan)
    ensures p.Issue? <==> (
      && item.Some? && name != "" && newName != ""
      && HasChannel(item, name).Resolved? && HasChannel(item, newName).Unresolved?)
    ensures p.Issue? ==> p.commands == [
      SelectCommand(item.value.uniqueName, HasChannel(item, name).actual),
      NameCommand(newName),
      UserNameCommand(newName)]
    ensures item.None? ==> p == Reject(NullItemError)
    ensures item.Some? && (name == "" || newName == "") ==> p == Reject(EmptyNameError)
    ensures item.Some? && name != "" && newName != "" && HasChannel(item, name).Unresolved? ==> p == Reject("")
    ensures (
      && item.Some? && name != "" && newName != ""
      && HasChannel(item, name).Resolved? && HasChannel(item, newName).Resolved?)
      ==> p == Reject(AlreadyExistsError(newName))
  {
    if item.None? then Reject(NullItemError)
    else if name == "" || newName == "" then Reject(EmptyNameError)
    else match HasChannel(item, name)
      case Unresolved(e) => Reject(e)
      case Resolved(actual) =>
        if HasChannel(item, newName).Resolved? then Reject(AlreadyExistsError(newName))
        else Issue([SelectCommand(item.value.uniqueName, actual), NameCommand(newName), UserNameCommand(newName)])
  }

  /** A rejected operation issues nothing; an issued one executes a prefix
      of its plan and succeeds exactly when it executes all of it. */
  lemma PerformIssuesPrefix(p: Plan, parses: string -> bool)
    ensures Perform(p, parses).executed <= (if p.Issue? then p.commands else [])
    ensures Perform(p, parses).ok <==> p.Issue? && Perform(p, parses).executed == p.commands
  {
  }

  /** Modo's command service, as the adapter drives it. */
  class CommandService {
    /** The commands executed so far, oldest first. */
    var executed: seq<string>
    /** Whether `NewCommandFromString` accepts a command string. */
    const parses: string -> bool

    constructor (parses: string -> bool)
      ensures executed == [] && this.parses == parses
    {
      executed := [];
      this.parses := parses;
    }

    /** `ExecuteCommand(command, err)`: true whenever the command parses,
        whatever Modo's `Execute` then does. */
    method ExecuteCommand(command: string) returns (ok: bool, err: string)
      modifies this
      ensures command == "" ==> !ok && err == EmptyCommandError && executed == old(executed)
      ensures command != "" && !parses(command) ==>
        !ok && err == ParseFailedError(command) && executed == old(executed)
      ensures command != "" && parses(command) ==> ok && err == "" && executed == old(executed) + [command]
    {
      err := "";
      if |command| <= 0 {
        err := EmptyCommandError;
        return false, err;
      }
      if !parses(command) {
        err := ParseFailedError(command);
        return false, err;
      }
      executed := executed + [command];
      ok := true;
    }

    method CreateUserChannel(item: Option<Item>, name: string, dataType: string, structType: string)
      returns (ok: bool, err: string)
      modifies this
      ensures var r := Perform(CreatePlan(item, name, dataType, structType), parses);
        ok == r.ok && err == r.err && executed == old(executed) + r.executed
    {
      err := "";
      if item.None? {
        return false, NullItemError;
      }
      if |name| <= 0 {
        return false, EmptyNameError;
      }
      if |dataType| <= 0 {
        return false, EmptyDataTypeError;
      }
      if HasChannel(item, name).Resolved? {
        return false, AlreadyExistsError(name);
      }
      var itemName := item.value.uniqueName;
      var command := CreateCommand(name, dataType, structType, itemName);
      ok, err := ExecuteCommand(command);
      assert ExecuteChain([command], parses).executed == (if ok then [command] else []);
    }

    method DeleteUserChannel(item: Option<Item>, name: string) returns (ok: bool, err: string)
      modifies this
      ensures var r := Perform(DeletePlan(item, name), parses);
        ok == r.ok && err == r.err && executed == old(executed) + r.executed
    {
      err := "";
      if item.None? {
        return false, NullItemError;
      }
      if |name| <= 0 {
        return false, EmptyNameError;
      }
      var lookup := HasChannel(item, name);
      if lookup.Unresolved? {
        return false, lookup.err;
      }
      var actualName := lookup.actual;
      var itemName := item.value.uniqueName;
      var select := SelectCommand(itemName, actualName);
      ChainOfTwo(select, DeleteCommand, parses);
      AppendInOrder(executed, select, DeleteCommand, DeleteCommand);
      assert Perform(DeletePlan(item, name), parses) == ExecuteChain([select, DeleteCommand], parses);
      ok, err := ExecuteCommand(select);
      if ok {
        ok, err := ExecuteCommand(DeleteCommand);
      } else {
        ok := false;
      }
    }

    method RenameUserChannel(item: Option<Item>, name: string, newName: string) returns (ok: bool, err: string)
      modifies this
      ensures var r := Perform(RenamePlan(item, name, newName), parses);
        ok == r.ok && err == r.err && executed == old(executed) + r.executed
    {
      err := "";
      if item.None? {
        return false, NullItemError;
      }
      if |name| <= 0 || |newName| <= 0 {
        return false, EmptyNameError;
      }
      var lookup := HasChannel(item, name);
      if lookup.Unresolved? {
        assert RenamePlan(item, name, newName) == Reject(lookup.err);
        return false, lookup.err;
      }
      var actualName := lookup.actual;
      if HasChannel(item, newName).Resolved? {
        assert RenamePlan(item, name, newName) == Reject(AlreadyExistsError(newName));
        return false, AlreadyExistsError(newName);
      }
      var itemName := item.value.uniqueName;
      var select := SelectCommand(itemName, actualName);
      var rename := NameCommand(newName);
      var relabel := UserNameCommand(newName);
      assert select != "" && rename != "" && relabel != "";
      ChainOfThree(select, rename, relabel, parses);
      assert Perform(RenamePlan(item, name, newName), parses) == ExecuteChain([select, rename, relabel], parses);
      ghost var before := executed;
      AppendInOrder(before, select, rename, relabel);
      ok, err := ExecuteCommand(select);
      if ok {
        ok, err := ExecuteCommand(rename);
        if ok {
          ok, err := ExecuteCommand(relabel);
        } else {
          ok := false;
        }
      } else {
        ok := false;
      }
    }
  }
}
