/** Editing a provider's hook configuration without touching what others put there. */
module Hooks {
  import opened Wrappers
  import opened Notifications
  import HookCommands

  datatype Json =
    | Null | Boolean(value: bool) | Number(repr: string) | Text(text: string)
    | Array(items: seq<Json>) | Object(fields: map<string, Json>)

  datatype HookError = InvalidHooksShape

  function Field(v: Json, name: string): Option<Json> {
    if v.Object? && name in v.fields then Some(v.fields[name]) else None
  }

  function TextField(v: Json, name: string): Option<string> {
    match Field(v, name) case Some(Text(s)) => Some(s) case _ => None
  }

  // ---------- paths ----------

  /** The names between slashes, without empty ones and `.`; `name` is the one being read. */
  function Components(path: string, name: string): seq<string>
    decreases |path|
  {
    var done := if name == "" || name == "." then [] else [name];
    if path == "" then done
    else if path[0] == '/' then done + Components(path[1..], "")
    else Components(path[1..], name + [path[0]])
  }

  predicate Absolute(path: string) {
    path != "" && path[0] == '/'
  }

  /** An absolute path whose last component is the program's name. */
  predicate NamesProgram(path: string) {
    Absolute(path) && var c := Components(path, ""); c != [] && c[|c| - 1] == "tmnotify"
  }

  predicate SamePath(a: string, b: string) {
    Absolute(a) == Absolute(b) && Components(a, "") == Components(b, "")
  }

  // ---------- handlers ----------

  function HandlerValue(p: Provider, executable: string): Json {
    match p
    case Claude =>
      Object(map["type" := Text("command"), "command" := Text(executable),
                 "args" := Array([Text("__hook-event"), Text("claude")])])
    case Codex =>
      Object(map["type" := Text("command"), "command" := Text(HookCommands.CodexCommand(executable))])
  }

  function CommandExecutable(handler: Json, command: string, p: Provider): Option<string> {
    match p
    case Claude =>
      if Field(handler, "args") == Some(Array([Text("__hook-event"), Text("claude")])) then Some(command) else None
    case Codex =>
      if Field(handler, "args").Some? then None
      else match HookCommands.ParseCodexCommand(command)
           case Executable(path) => Some(path)
           case _ => None
  }

  /** The executable of a handler tmnotify installed. */
  function OwnedExecutable(handler: Json, p: Provider): Option<string> {
    if TextField(handler, "type") != Some("command") || TextField(handler, "command").None? then None
    else
      match CommandExecutable(handler, TextField(handler, "command").value, p)
      case Some(path) => if NamesProgram(path) then Some(path) else None
      case None => None
  }

  predicate Owned(handler: Json, p: Provider) {
    OwnedExecutable(handler, p).Some?
  }

  /** A handler written for an executable is recognized, and as that executable, exactly when
      the path is absolute and names the program. */
  lemma HandlerRecognized(p: Provider, executable: string)
    ensures OwnedExecutable(HandlerValue(p, executable), p)
         == if NamesProgram(executable) then Some(executable) else None
  {
    HookCommands.CommandRecovered(executable);
    hide HookCommands.ParseCodexCommand, HookCommands.CodexCommand, NamesProgram;
  }

  // ---------- records ----------

  /** A handler with the matcher of its group. */
  datatype Record = Record(matcher: Option<string>, handler: Json)

  function Handlers(group: Json): Option<seq<Json>> {
    match Field(group, "hooks") case Some(Array(hs)) => Some(hs) case _ => None
  }

  function Tagged(matcher: Option<string>, handlers: seq<Json>): seq<Record> {
    if handlers == [] then [] else [Record(matcher, handlers[0])] + Tagged(matcher, handlers[1..])
  }

  function GroupRecords(group: Json): seq<Record> {
    match Handlers(group) case Some(hs) => Tagged(TextField(group, "matcher"), hs) case None => []
  }

  function RecordsIn(groups: seq<Json>): seq<Record> {
    if groups == [] then [] else GroupRecords(groups[0]) + RecordsIn(groups[1..])
  }

  function HooksOf(root: Json): Option<map<string, Json>> {
    match Field(root, "hooks") case Some(Object(hs)) => Some(hs) case _ => None
  }

  function GroupsOf(root: Json, event: string): seq<Json> {
    match HooksOf(root)
    case Some(hs) => if event in hs && hs[event].Array? then hs[event].items else []
    case None => []
  }

  /** The handlers of one event, in order. */
  function EventRecords(root: Json, event: string): seq<Record> {
    RecordsIn(GroupsOf(root, event))
  }

  /** The records that are ours, or those that are not. */
  function Select(records: seq<Record>, p: Provider, ours: bool): seq<Record> {
    if records == [] then []
    else if Owned(records[0].handler, p) == ours then [records[0]] + Select(records[1..], p, ours)
    else Select(records[1..], p, ours)
  }

  // ---------- removing ----------

  function KeptHandlers(handlers: seq<Json>, p: Provider): seq<Json> {
    if handlers == [] then []
    else if Owned(handlers[0], p) then KeptHandlers(handlers[1..], p)
    else [handlers[0]] + KeptHandlers(handlers[1..], p)
  }

  function WithHandlers(group: Json, handlers: seq<Json>): Json
    requires group.Object?
  {
    Object(group.fields["hooks" := Array(handlers)])
  }

  function Stripped(group: Json, p: Provider): Json {
    match Handlers(group) case Some(hs) => WithHandlers(group, KeptHandlers(hs, p)) case None => group
  }

  function KeptGroups(groups: seq<Json>, p: Provider): seq<Json> {
    if groups == [] then []
    else
      var g := Stripped(groups[0], p);
      if Handlers(g) == Some([]) then KeptGroups(groups[1..], p) else [g] + KeptGroups(groups[1..], p)
  }

  /** What is left of an event's value, if anything. */
  function Cleaned(value: Json, p: Provider): Option<Json> {
    if !value.Array? then Some(value)
    else var groups := KeptGroups(value.items, p); if groups == [] then None else Some(Array(groups))
  }

  function RemoveOwned(root: Json, p: Provider): Json {
    match HooksOf(root)
    case None => root
    case Some(hs) =>
      Object(root.fields["hooks" := Object(map e | e in hs && Cleaned(hs[e], p).Some? :: Cleaned(hs[e], p).value)])
  }

  // ---------- adding ----------

  function RequiredMatcher(p: Provider, event: string): Option<string> {
    if p == Claude && event == "Notification" then Some("agent_needs_input") else None
  }

  function FindGroup(groups: seq<Json>, matcher: Option<string>): (i: nat)
    ensures i <= |groups|
    ensures i < |groups| ==> groups[i].Object? && TextField(groups[i], "matcher") == matcher
  {
    if groups == [] then 0
    else if groups[0].Object? && TextField(groups[0], "matcher") == matcher then 0
    else 1 + FindGroup(groups[1..], matcher)
  }

  function NewGroup(matcher: Option<string>, handler: Json): Json {
    match matcher
    case Some(m) => Object(map["matcher" := Text(m), "hooks" := Array([handler])])
    case None => Object(map["hooks" := Array([handler])])
  }

  function AddToGroups(groups: seq<Json>, matcher: Option<string>, handler: Json): Result<seq<Json>, HookError> {
    var i := FindGroup(groups, matcher);
    if i == |groups| then Ok(groups + [NewGroup(matcher, handler)])
    else match Handlers(groups[i])
         case Some(hs) => Ok(groups[i := WithHandlers(groups[i], hs + [handler])])
         case None => Err(InvalidHooksShape)
  }

  function AddHandler(root: Json, p: Provider, event: string, executable: string): Result<Json, HookError> {
    if !root.Object? then Err(InvalidHooksShape)
    else
      var hooks := if "hooks" in root.fields then root.fields["hooks"] else Object(map[]);
      if !hooks.Object? then Err(InvalidHooksShape)
      else
        var value := if event in hooks.fields then hooks.fields[event] else Array([]);
        if !value.Array? then Err(InvalidHooksShape)
        else match AddToGroups(value.items, RequiredMatcher(p, event), HandlerValue(p, executable))
             case Err(e) => Err(e)
             case Ok(groups) => Ok(Object(root.fields["hooks" := Object(hooks.fields[event := Array(groups)])]))
  }

  function AddAll(root: Json, p: Provider, events: seq<string>, executable: string): Result<Json, HookError>
    decreases |events|
  {
    if events == [] then Ok(root)
    else match AddHandler(root, p, events[0], executable)
         case Err(e) => Err(e)
         case Ok(r) => AddAll(r, p, events[1..], executable)
  }

  /** `reconcile_value` for install and sync; removing is `RemoveOwned` alone. */
  function Install(root: Json, p: Provider, events: seq<string>, executable: string): Result<Json, HookError> {
    AddAll(RemoveOwned(root, p), p, events, executable)
  }

  // ---------- in sync ----------

  /** The owned records of the listed events, each with its event. */
  function OwnedRecords(root: Json, p: Provider, order: seq<string>): seq<(string, Record)> {
    if order == [] then []
    else Labelled(order[0], Select(EventRecords(root, order[0]), p, true)) + OwnedRecords(root, p, order[1..])
  }

  function Labelled(event: string, records: seq<Record>): (r: seq<(string, Record)>)
    ensures |r| == |records|
  {
    seq(|records|, i requires 0 <= i < |records| => (event, records[i]))
  }

  predicate Placed(r: (string, Record), p: Provider, executable: string, desired: set<string>) {
    && OwnedExecutable(r.1.handler, p).Some? && SamePath(OwnedExecutable(r.1.handler, p).value, executable)
    && r.0 in desired && r.1.matcher == RequiredMatcher(p, r.0)
  }

  /** `installation_is_in_sync`; `order` is the order in which the hooks object lists its events. */
  predicate InSync(root: Json, p: Provider, executable: string, desired: set<string>, order: seq<string>) {
    var owned := OwnedRecords(root, p, order);
    |owned| == |desired| && forall r :: r in owned ==> Placed(r, p, executable, desired)
  }
}
