/** Entries of the process module registry `sys.modules`, and the stand-in
    module `ForbiddenDependencyModule` that refuses every attribute lookup. */
module Registry {
  import opened Results
  import opened ModuleNames

  /** A registry entry: an original module, known only by its identity, or a
      stand-in created for the forbidden module `name`. */
  datatype Entry = Real(id: nat) | Forbidden(name: string)

  /** `sys.modules`: fully qualified module name to entry. */
  type Modules = map<string, Entry>

  /** What a successful attribute lookup yields: an attribute of an original
      module, or the `name` a stand-in stores on itself. */
  datatype Attribute = ModuleAttribute(owner: nat, name: string) | StandInName(value: string)

  /** The one instance attribute a stand-in sets in its constructor; normal
      lookup finds it, so `__getattr__` is not consulted for it. */
  const InstanceAttribute: string := "name"

  /** The exceptions of the guard: the stand-in's `Exception(msg)`, and the
      `NameError` raised when a global was never bound. */
  datatype Error = ImportForbidden(message: string) | NameUnbound(variable: string)

  const MessageLead: string := "You aren't allowed to import anything from "
  const MessageTail: string := "!!"

  /** The stand-in's error text for module `n`. */
  function Message(n: string): string {
    MessageLead + n + MessageTail
  }

  /** Reads the module name back out of an error text. */
  function NamedIn(msg: string): string {
    if StartsWith(msg, MessageLead) && |MessageLead| + |MessageTail| <= |msg|
    then msg[|MessageLead|..|msg| - |MessageTail|]
    else ""
  }

  /** The error text identifies the forbidden module: the name can be read back. */
  lemma MessageNamesModule(n: string)
    ensures StartsWith(Message(n), MessageLead)
    ensures NamedIn(Message(n)) == n
  {
    var msg := Message(n);
    assert msg[..|MessageLead|] == MessageLead;
    assert msg[|MessageLead|..|msg| - |MessageTail|] == n;
  }

  /** Distinct modules give distinct error texts. */
  lemma MessageInjective(a: string, b: string)
    requires Message(a) == Message(b)
    ensures a == b
  {
    MessageNamesModule(a);
    MessageNamesModule(b);
  }

  /** Attribute lookup on a registry entry. On a stand-in, Python finds the
      instance attribute `name` by normal lookup and only falls back to
      `ForbiddenDependencyModule.__getattr__`, which raises, for anything
      else. Lookup on an original module is taken to succeed. */
  function GetAttr(e: Entry, attr: string): (r: Result<Attribute, Error>)
    ensures r.Failure? <==> e.Forbidden? && attr != InstanceAttribute
    ensures r.Failure? ==> r.error == ImportForbidden(Message(e.name))
    ensures r.Failure? ==>
              && r.error.ImportForbidden?
              && StartsWith(r.error.message, MessageLead)
              && NamedIn(r.error.message) == e.name
    ensures e.Forbidden? && r.Success? ==> r.value == StandInName(e.name)
    ensures e.Real? ==> r == Success(ModuleAttribute(e.id, attr))
  {
    match e
    case Real(id) => Success(ModuleAttribute(id, attr))
    case Forbidden(n) =>
      if attr == InstanceAttribute then Success(StandInName(n))
      else
        MessageNamesModule(n);
        Failure(ImportForbidden(Message(n)))
  }
}
