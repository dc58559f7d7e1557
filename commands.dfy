/**
 * The RPC calls the client's wrapper methods make (method name and argument array), and
 * how `get`, `add`, `getSettings` and `seedRatioLimit` read the replies.
 */
module Commands {
  import opened Wrappers
  import opened PhpStrings
  import opened Php
  import opened Failures
  import opened ParamBuilder
  import opened Sequences

  /** An RPC call: the method name and the argument array before sanitising. */
  datatype Call = Call(name: string, params: seq<(Key, Value)>)

  /** The wrappers whose only argument is `$ids`. */
  datatype Action = Start | StartNow | Stop | Verify | Reannounce | QueueMoveTop | QueueMoveUp | QueueMoveDown | QueueMoveBottom

  /** The RPC method each action posts; queueMoveUp posts 'queue-move-top', as queueMoveTop does. */
  function ActionMethod(a: Action): string {
    match a
    case Start => "torrent-start"
    case StartNow => "torrent-start-now"
    case Stop => "torrent-stop"
    case Verify => "torrent-verify"
    case Reannounce => "torrent-reannounce"
    case QueueMoveTop => "queue-move-top"
    case QueueMoveUp => "queue-move-top"
    case QueueMoveDown => "queue-move-down"
    case QueueMoveBottom => "queue-move-bottom"
  }

  /** `compact('ids')`: the entry is there even for null; build() drops it then. */
  function ActionCall(a: Action, ids: Value): Call {
    Call(ActionMethod(a), [(StrKey("ids"), ids)])
  }

  /** set(): `$arguments['ids'] = $ids`. */
  function SetCall(ids: Value, arguments: seq<(Key, Value)>): (c: Call)
    ensures c.name == "torrent-set"
    ensures Lookup(c.params, StrKey("ids")) == Some(ids)
  {
    AssignLookup(arguments, StrKey("ids"), ids);
    Call("torrent-set", Assign(arguments, StrKey("ids"), ids))
  }

  /** Torrent::$fields['default']. */
  const DefaultFields: seq<string> := [
    "id", "eta", "name", "status", "isFinished", "files", "hashString", "downloadDir",
    "percentDone", "haveValid", "haveUnchecked", "totalSize", "leftUntilDone", "addedDate",
    "doneDate", "activityDate"
  ]

  /** A PHP list of strings. */
  function StringList(names: seq<string>): (v: Value)
    ensures v.Arr? && |v.entries| == |names|
    ensures forall i | 0 <= i < |names| :: v.entries[i] == (IntKey(i), Str(names[i]))
  {
    Arr(seq(|names|, i requires 0 <= i < |names| => (IntKey(i), Str(names[i]))))
  }

  /** get(): `compact('ids', 'fields')`, the default fields when none are given. */
  function GetCall(ids: Value, fields: Option<seq<string>>): Call {
    Call("torrent-get", [(StrKey("ids"), ids), (StrKey("fields"), StringList(fields.GetOr(DefaultFields)))])
  }

  /** add(): the torrent under 'metainfo' (base64) or 'filename', then 'download-dir' when a save path is given. */
  function AddCall(rt: Runtime, torrent: string, metainfo: bool, savepath: Option<string>, arguments: seq<(Key, Value)>): Call {
    var withTorrent :=
      if metainfo then Assign(arguments, StrKey("metainfo"), Str(rt.base64Encode(torrent)))
      else Assign(arguments, StrKey("filename"), Str(torrent));
    var withDir :=
      if savepath.Some? then Assign(withTorrent, StrKey("download-dir"), Str(savepath.value)) else withTorrent;
    Call("torrent-add", withDir)
  }

  function RemoveCall(ids: Value, deleteLocalData: bool): Call {
    Call("torrent-remove", [(StrKey("ids"), ids), (StrKey("delete-local-data"), Bool(deleteLocalData))])
  }

  function MoveCall(ids: Value, location: string, move: bool): Call {
    Call("torrent-set-location", [(StrKey("ids"), ids), (StrKey("location"), Str(location)), (StrKey("move"), Bool(move))])
  }

  function RenameCall(ids: Value, path: string, name: string): Call {
    Call("torrent-rename-path", [(StrKey("ids"), ids), (StrKey("path"), Str(path)), (StrKey("name"), Str(name))])
  }

  function SetSettingsCall(arguments: seq<(Key, Value)>): Call {
    Call("session-set", arguments)
  }

  /** getSettings(): `compact('fields')`, null when no fields are given. */
  function GetSettingsCall(fields: Option<seq<string>>): Call {
    Call("session-get", [(StrKey("fields"), if fields.Some? then StringList(fields.value) else Null)])
  }

  /** The calls that take no arguments: session-stats, blocklist-update, port-test, session-close. */
  function PlainCall(name: string): Call {
    Call(name, [])
  }

  function FreeSpaceCall(path: Value): Call {
    Call("free-space", [(StrKey("path"), path)])
  }

  /** seedRatioLimit() asks for exactly the two settings it reads. */
  function SeedRatioLimitCall(): Call {
    GetSettingsCall(Some(["seedRatioLimited", "seedRatioLimit"]))
  }

  function UpdateDownloadDirCall(downloadDir: string): Call {
    SetSettingsCall([(StrKey("download-dir"), Str(downloadDir))])
  }

  function UpdateIncompleteDirCall(incompleteDir: string, enable: bool): Call {
    SetSettingsCall([(StrKey("incomplete-dir-enabled"), Bool(enable)), (StrKey("incomplete-dir"), Str(incompleteDir))])
  }

  // ---------------------------------------------------------------- replies

  /**
   * data_get($v, 'a.b', $default): walk array keys; a missing key or a non-array on the
   * way gives the default. A present key holding null gives null, not the default.
   */
  function DataGet(v: Value, path: seq<Key>, default: Value): (r: Value)
    ensures path == [] ==> r == v
    ensures path != [] && !(v.Arr? && HasKey(v.entries, path[0])) ==> r == default
    ensures |path| == 1 && v.Arr? && HasKey(v.entries, path[0]) ==> r == Lookup(v.entries, path[0]).value
    decreases |path|
  {
    if path == [] then v
    else if v.Arr? && HasKey(v.entries, path[0]) then DataGet(Lookup(v.entries, path[0]).value, path[1..], default)
    else default
  }

  /** What get() hands back: an empty collection, one Torrent, or a collection of Torrents. */
  datatype Torrents = NoTorrents | OneTorrent(items: seq<(Key, Value)>) | ManyTorrents(all: seq<seq<(Key, Value)>>)

  const ReturnNotCollection: string := "Return value must be of type Collection, null returned"

  /**
   * get(): `data_get($data, 'arguments.torrents', 0)`; blank gives the empty collection;
   * otherwise each item becomes a Torrent over collect($item), and one Torrent is returned
   * on its own.
   */
  function InterpretGet(rt: Runtime, data: Value): (r: Result<Torrents, Failure>)
    ensures var info := DataGet(data, [StrKey("arguments"), StrKey("torrents")], Int(0));
      (r == Ok(NoTorrents) <==> Blank(rt, info))
      && (r.Err? <==> !Blank(rt, info) && ArrayableItems(rt, info) == [])
      && (r.Ok? && r.value.OneTorrent? <==> !Blank(rt, info) && |ArrayableItems(rt, info)| == 1)
      && (r.Ok? && r.value.ManyTorrents? ==> |r.value.all| == |ArrayableItems(rt, info)| > 1)
  {
    var info := DataGet(data, [StrKey("arguments"), StrKey("torrents")], Int(0));
    if Blank(rt, info) then Ok(NoTorrents)
    else
      var items := ArrayableItems(rt, info);
      var torrents := seq(|items|, i requires 0 <= i < |items| => ArrayableItems(rt, items[i].1));
      if |torrents| > 1 then Ok(ManyTorrents(torrents))
      else if |torrents| == 1 then Ok(OneTorrent(torrents[0]))
      // first() of an empty collection is null, which the Collection return type refuses.
      else Err(Engine(TypeError(ReturnNotCollection)))
  }

  /** How add() reads the reply: fetch a duplicate by id, or the added torrent's fields. */
  datatype AddReply = Duplicate(id: Value) | Added(items: seq<(Key, Value)>)

  const NotArray: string := "array_key_exists(): Argument #2 ($array) must be of type array"

  /**
   * add() on the decoded reply. Only a reply whose `arguments` is an array gets an answer
   * or the InvalidArgumentException: a duplicate exactly when it reports one, the added
   * torrent only when it holds 'torrent-added', and the exception only when it holds neither.
   */
  function InterpretAdd(rt: Runtime, data: Value): (r: Result<AddReply, Failure>)
    ensures r.Ok? || r.error.InvalidArgumentException? ==>
      data.Arr? && HasKey(data.entries, StrKey("arguments")) && Lookup(data.entries, StrKey("arguments")).value.Arr?
      && var a := Lookup(data.entries, StrKey("arguments")).value.entries;
        (r.Ok? ==> (r.value.Duplicate? <==> HasKey(a, StrKey("torrent-duplicate"))))
        && (r.Ok? && r.value.Added? ==> HasKey(a, StrKey("torrent-added")))
        && (r.Err? ==> !HasKey(a, StrKey("torrent-duplicate")) && !HasKey(a, StrKey("torrent-added")))
  {
    match Index(data, StrKey("arguments"))
    case Err(e) => Err(Engine(e))
    case Ok(arguments) =>
      if !arguments.Arr? then Err(Engine(TypeError(NotArray)))
      else if HasKey(arguments.entries, StrKey("torrent-duplicate")) then
        match Index(Lookup(arguments.entries, StrKey("torrent-duplicate")).value, StrKey("id"))
        case Err(e) => Err(Engine(e))
        case Ok(id) => Ok(Duplicate(id))
      else if !HasKey(arguments.entries, StrKey("torrent-added")) then
        match Index(data, StrKey("result"))
        case Err(e) => Err(Engine(e))
        case Ok(result) => Err(InvalidArgumentException(result))
      else Ok(Added(ArrayableItems(rt, Lookup(arguments.entries, StrKey("torrent-added")).value)))
  }

  const ReturnNotArray: string := "Return value must be of type array"

  /** The `: array` return type of getSettings(), rename(), sessionStats() and updateBlocklist(). */
  function ArrayReply(data: Value): (r: Result<Value, Failure>)
    ensures r.Ok? <==> data.Arr?
    ensures r.Ok? ==> r.value == data
  {
    if data.Arr? then Ok(data) else Err(Engine(TypeError(ReturnNotArray)))
  }

  /** seedRatioLimit() on what getSettings() returned: the limit when 'seedRatioLimited' is set, else -1. */
  function SeedRatioLimitOf(settingsReply: Value): (r: Value)
    requires settingsReply.Arr?
    ensures var settings := Lookup(settingsReply.entries, StrKey("arguments")).GetOr(Null);
      (r == Int(-1) || r == Null || (settings.Arr? && Lookup(settings.entries, StrKey("seedRatioLimit")) == Some(r)))
      && (r != Int(-1) ==> Isset(settings, StrKey("seedRatioLimited")))
  {
    var settings := Lookup(settingsReply.entries, StrKey("arguments")).GetOr(Null);
    if Isset(settings, StrKey("seedRatioLimited")) then Lookup(settings.entries, StrKey("seedRatioLimit")).GetOr(Null)
    else Int(-1)
  }

  /** The wrappers that answer `true` once api() has returned, whatever it returned. */
  function Succeeded(res: Result<Value, Failure>): (r: Result<bool, Failure>)
    ensures r.Ok? <==> res.Ok?
    ensures r.Ok? ==> r.value
    ensures res.Err? ==> r == Err(res.error)
  {
    match res
    case Ok(_) => Ok(true)
    case Err(f) => Err(f)
  }

  /** get() on what api() returned. */
  function GetReply(rt: Runtime, res: Result<Value, Failure>): Result<Torrents, Failure> {
    match res
    case Ok(data) => InterpretGet(rt, data)
    case Err(f) => Err(f)
  }

  /** What an array-typed wrapper hands back for what api() returned. */
  function ArrayTyped(res: Result<Value, Failure>): Result<Value, Failure> {
    match res
    case Ok(data) => ArrayReply(data)
    case Err(f) => Err(f)
  }

  /**
   * The array-typed wrappers (rename, getSettings, sessionStats, updateBlocklist, freeSpace)
   * return the reply itself when it is an array, raise a TypeError for any other reply, and
   * pass a raised failure on.
   */
  lemma ArrayTypedReturnsReply(res: Result<Value, Failure>)
    ensures ArrayTyped(res).Ok? <==> res.Ok? && res.value.Arr?
    ensures ArrayTyped(res).Ok? ==> ArrayTyped(res) == res
    ensures res.Ok? && !res.value.Arr? ==> ArrayTyped(res) == Err(Engine(TypeError(ReturnNotArray)))
    ensures res.Err? ==> ArrayTyped(res) == res
  {
  }

  /** A wrapper that ends in `return true` never answers false: it answers true or raises. */
  lemma SucceededNeverFalse(res: Result<Value, Failure>)
    ensures Succeeded(res) != Ok(false)
    ensures Succeeded(res) == Ok(true) || Succeeded(res) == Err(res.error)
  {
  }

  /** seedRatioLimit() on what getSettings()'s api() call returned. */
  function SeedRatioReply(res: Result<Value, Failure>): Result<Value, Failure> {
    match ArrayTyped(res)
    case Ok(data) => Ok(SeedRatioLimitOf(data))
    case Err(f) => Err(f)
  }

  /** add() on what api() returned: a failed call is passed on, a reply is interpreted. */
  function AddOutcome(rt: Runtime, res: Result<Value, Failure>): (r: Result<AddReply, Failure>)
    ensures res.Err? ==> r == Err(res.error)
    ensures r.Ok? ==> res.Ok? && r == InterpretAdd(rt, res.value)
  {
    match res
    case Ok(data) => InterpretAdd(rt, data)
    case Err(f) => Err(f)
  }

  const ReturnNotBool: string := "Return value must be of type bool"

  /**
   * A `: bool` return type outside strict mode: a bool is returned as it is, an int, float
   * or string is converted by truthiness, and null, an array or an object is refused.
   */
  function BoolReturn(rt: Runtime, v: Value): (r: Result<bool, Failure>)
    ensures v.Bool? ==> r == Ok(v.b)
    ensures r.Err? <==> v.Null? || v.Arr? || v.Obj?
    ensures r.Ok? ==> r.value == Truthy(rt, v)
  {
    match v
    case Null => Err(Engine(TypeError(ReturnNotBool)))
    case Arr(_) => Err(Engine(TypeError(ReturnNotBool)))
    case Obj(_) => Err(Engine(TypeError(ReturnNotBool)))
    case _ => Ok(Truthy(rt, v))
  }

  /** `$data['arguments'][$key]`, each read as PHP 8 reads an offset. */
  function ArgumentsEntry(data: Value, key: Key): (r: Result<Value, Failure>)
    ensures data.Arr? && HasKey(data.entries, StrKey("arguments")) && Lookup(data.entries, StrKey("arguments")).value.Arr?
            && HasKey(Lookup(data.entries, StrKey("arguments")).value.entries, key)
        ==> r == Ok(Lookup(Lookup(data.entries, StrKey("arguments")).value.entries, key).value)
  {
    match Index(data, StrKey("arguments"))
    case Err(e) => Err(Engine(e))
    case Ok(arguments) =>
      match Index(arguments, key)
      case Err(e) => Err(Engine(e))
      case Ok(v) => Ok(v)
  }

  /** portTest() on what api() returned: `['arguments']['port-is-open']` as a bool. */
  function PortTestReply(rt: Runtime, res: Result<Value, Failure>): Result<bool, Failure> {
    match res
    case Err(f) => Err(f)
    case Ok(data) =>
      match ArgumentsEntry(data, StrKey("port-is-open"))
      case Err(f) => Err(f)
      case Ok(v) => BoolReturn(rt, v)
  }

  /** freeSpace() on what api() returned: `['arguments']`, which must be an array. */
  function FreeSpaceReply(res: Result<Value, Failure>): Result<Value, Failure> {
    match res
    case Err(f) => Err(f)
    case Ok(data) =>
      match Index(data, StrKey("arguments"))
      case Err(e) => Err(Engine(e))
      case Ok(arguments) => ArrayReply(arguments)
  }

  /** freeSpace() with a blank path on what getSettings()'s api() call returned: `['arguments']['download-dir']`. */
  function DownloadDirReply(res: Result<Value, Failure>): Result<Value, Failure> {
    match ArrayTyped(res)
    case Err(f) => Err(f)
    case Ok(data) => ArgumentsEntry(data, StrKey("download-dir"))
  }

  // ---------------------------------------------------------------- lemmas

  /** queueMoveUp is indistinguishable from queueMoveTop on the wire; every other action has its own method. */
  lemma QueueMoveUpSendsTop()
    ensures ActionMethod(QueueMoveUp) == "queue-move-top" == ActionMethod(QueueMoveTop)
  {
  }

  lemma ActionMethodsOtherwiseDistinct(a: Action, b: Action)
    requires ActionMethod(a) == ActionMethod(b) && a != b
    ensures {a, b} == {QueueMoveTop, QueueMoveUp}
  {
  }

  /** An id-only wrapper posts its own method with just `ids`, which build() drops when blank. */
  lemma ActionSendsIds(rt: Runtime, a: Action, ids: Value)
    ensures ActionCall(a, ids).name == ActionMethod(a)
    ensures Build(rt, ActionCall(a, ids).params) == Sent(rt, StrKey("ids"), ids)
  {
    BuildSingle(rt, StrKey("ids"), ids);
  }

  /** get() sends `ids` and `fields`, each only when filled: an empty field list is not sent at all. */
  lemma GetSends(rt: Runtime, ids: Value, fields: Option<seq<string>>)
    ensures var names := fields.GetOr(DefaultFields);
      Build(rt, GetCall(ids, fields).params) == Sent(rt, StrKey("ids"), ids) + Sent(rt, StrKey("fields"), StringList(names))
    ensures fields == Some([]) ==> Build(rt, GetCall(ids, fields).params) == Sent(rt, StrKey("ids"), ids)
  {
    var list := StringList(fields.GetOr(DefaultFields));
    BuildCons(rt, StrKey("ids"), ids, [(StrKey("fields"), list)]);
    BuildSingle(rt, StrKey("fields"), list);
    assert GetCall(ids, fields).params == [(StrKey("ids"), ids)] + [(StrKey("fields"), list)];
  }

  /** move() sends `ids` and `location` when filled and `move` always, as 0 or 1. */
  lemma MoveSends(rt: Runtime, ids: Value, location: string, move: bool)
    ensures Build(rt, MoveCall(ids, location, move).params)
         == Sent(rt, StrKey("ids"), ids) + Sent(rt, StrKey("location"), Str(location))
            + [(StrKey("move"), Int(if move then 1 else 0))]
  {
    var m := [(StrKey("move"), Bool(move))];
    var tail := [(StrKey("location"), Str(location))] + m;
    assert MoveCall(ids, location, move).params == [(StrKey("ids"), ids)] + tail;
    BuildSingle(rt, StrKey("move"), Bool(move));
    BuildCons(rt, StrKey("location"), Str(location), m);
    BuildCons(rt, StrKey("ids"), ids, tail);
    AppendAssociative(Sent(rt, StrKey("ids"), ids), Sent(rt, StrKey("location"), Str(location)), Build(rt, m));
  }

  /** rename() sends `ids`, `path` and `name`, each only when filled. */
  lemma RenameSends(rt: Runtime, ids: Value, path: string, name: string)
    ensures Build(rt, RenameCall(ids, path, name).params)
         == Sent(rt, StrKey("ids"), ids) + Sent(rt, StrKey("path"), Str(path)) + Sent(rt, StrKey("name"), Str(name))
  {
    var n := [(StrKey("name"), Str(name))];
    var tail := [(StrKey("path"), Str(path))] + n;
    assert RenameCall(ids, path, name).params == [(StrKey("ids"), ids)] + tail;
    BuildSingle(rt, StrKey("name"), Str(name));
    BuildCons(rt, StrKey("path"), Str(path), n);
    BuildCons(rt, StrKey("ids"), ids, tail);
    AppendAssociative(Sent(rt, StrKey("ids"), ids), Sent(rt, StrKey("path"), Str(path)), Build(rt, n));
  }

  /** getSettings() sends `fields` only for a non-empty list: without fields it asks for everything. */
  lemma GetSettingsSends(rt: Runtime, fields: Option<seq<string>>)
    ensures GetSettingsCall(fields).name == "session-get"
    ensures fields.None? || fields == Some([]) ==> Build(rt, GetSettingsCall(fields).params) == []
    ensures fields.Some? && fields.value != [] ==>
      Build(rt, GetSettingsCall(fields).params) == [(StrKey("fields"), Transform(rt, StringList(fields.value)))]
  {
    BuildSingle(rt, StrKey("fields"), if fields.Some? then StringList(fields.value) else Null);
  }

  /** getSettings() for two filled names sends just those two, in order, each as build() sends text. */
  lemma TwoFieldsSent(rt: Runtime, a: string, b: string)
    requires !IsBlankString(a) && !IsBlankString(b)
    ensures Build(rt, GetSettingsCall(Some([a, b])).params)
         == [(StrKey("fields"), Arr([(IntKey(0), Transform(rt, Str(a))), (IntKey(1), Transform(rt, Str(b)))]))]
  {
    var list := StringList([a, b]);
    var e0, e1 := (IntKey(0), Str(a)), (IntKey(1), Str(b));
    assert list.entries == [e0] + [e1];
    BuildSingle(rt, e1.0, e1.1);
    BuildCons(rt, e0.0, e0.1, [e1]);
    assert Build(rt, list.entries) == [(IntKey(0), Transform(rt, Str(a))), (IntKey(1), Transform(rt, Str(b)))];
    BuildSingle(rt, StrKey("fields"), list);
  }

  /**
   * seedRatioLimit() asks session-get for exactly 'seedRatioLimited' and 'seedRatioLimit',
   * in that order, each sent as build() sends text.
   */
  lemma SeedRatioLimitSends(rt: Runtime)
    ensures SeedRatioLimitCall().name == "session-get"
    ensures Build(rt, SeedRatioLimitCall().params)
         == [(StrKey("fields"), Arr([(IntKey(0), Transform(rt, Str("seedRatioLimited"))),
                                     (IntKey(1), Transform(rt, Str("seedRatioLimit")))]))]
  {
    LetterFirstNotBlank("seedRatioLimited");
    LetterFirstNotBlank("seedRatioLimit");
    TwoFieldsSent(rt, "seedRatioLimited", "seedRatioLimit");
  }

  /** updateDownloadDir() sends just `download-dir`, and nothing for a blank one. */
  lemma UpdateDownloadDirSends(rt: Runtime, downloadDir: string)
    ensures UpdateDownloadDirCall(downloadDir).name == "session-set"
    ensures Build(rt, UpdateDownloadDirCall(downloadDir).params) == Sent(rt, StrKey("download-dir"), Str(downloadDir))
  {
    BuildSingle(rt, StrKey("download-dir"), Str(downloadDir));
  }

  /** updateIncompleteDir() always sends the enable flag, as 0 or 1, and the directory when filled. */
  lemma UpdateIncompleteDirSends(rt: Runtime, incompleteDir: string, enable: bool)
    ensures UpdateIncompleteDirCall(incompleteDir, enable).name == "session-set"
    ensures Build(rt, UpdateIncompleteDirCall(incompleteDir, enable).params)
         == [(StrKey("incomplete-dir-enabled"), Int(if enable then 1 else 0))] + Sent(rt, StrKey("incomplete-dir"), Str(incompleteDir))
  {
    var d := [(StrKey("incomplete-dir"), Str(incompleteDir))];
    BuildCons(rt, StrKey("incomplete-dir-enabled"), Bool(enable), d);
    BuildSingle(rt, StrKey("incomplete-dir"), Str(incompleteDir));
    assert UpdateIncompleteDirCall(incompleteDir, enable).params == [(StrKey("incomplete-dir-enabled"), Bool(enable))] + d;
  }

  /** set() sends its `$ids` whatever the arguments said, and every other argument as given. */
  lemma SetOverridesIds(ids: Value, arguments: seq<(Key, Value)>, k: Key)
    ensures Lookup(SetCall(ids, arguments).params, StrKey("ids")) == Some(ids)
    ensures k != StrKey("ids") ==> Lookup(SetCall(ids, arguments).params, k) == Lookup(arguments, k)
  {
    AssignLookup(arguments, StrKey("ids"), ids);
  }

  /** remove() sends exactly the ids and the delete flag; a false flag survives sanitising as 0. */
  lemma RemoveSendsExactly(rt: Runtime, ids: Value, deleteLocalData: bool)
    requires !Blank(rt, ids)
    ensures RemoveCall(ids, deleteLocalData).params == [(StrKey("ids"), ids), (StrKey("delete-local-data"), Bool(deleteLocalData))]
    ensures Build(rt, RemoveCall(ids, deleteLocalData).params)
         == [(StrKey("ids"), Transform(rt, ids)), (StrKey("delete-local-data"), Int(if deleteLocalData then 1 else 0))]
  {
    var rest := [(StrKey("delete-local-data"), Bool(deleteLocalData))];
    BuildCons(rt, StrKey("ids"), ids, rest);
    BuildSingle(rt, StrKey("delete-local-data"), Bool(deleteLocalData));
    assert [(StrKey("ids"), ids)] + rest == RemoveCall(ids, deleteLocalData).params;
  }

  /** Assigning k, then 'download-dir' when there is a save path, leaves k's value and every third key as they were. */
  lemma AssignKeepsOthers(es: seq<(Key, Value)>, k: Key, v: Value, savepath: Option<string>, other: Key)
    requires k != StrKey("download-dir") && other != k && other != StrKey("download-dir")
    ensures var t := Assign(es, k, v);
      var p := if savepath.Some? then Assign(t, StrKey("download-dir"), Str(savepath.value)) else t;
      Lookup(p, k) == Some(v) && Lookup(p, other) == Lookup(es, other)
  {
    var t := Assign(es, k, v);
    AssignLookup(es, k, v);
    if savepath.Some? {
      AssignLookup(t, StrKey("download-dir"), Str(savepath.value));
    }
  }

  /** add() with metainfo sends the base64 of the torrent under 'metainfo' and does not touch 'filename'. */
  lemma AddMetainfo(rt: Runtime, torrent: string, savepath: Option<string>, arguments: seq<(Key, Value)>)
    ensures var p := AddCall(rt, torrent, true, savepath, arguments).params;
      Lookup(p, StrKey("metainfo")) == Some(Str(rt.base64Encode(torrent)))
      && Lookup(p, StrKey("filename")) == Lookup(arguments, StrKey("filename"))
  {
    assert "filename"[0] != "metainfo"[0];
    AssignKeepsOthers(arguments, StrKey("metainfo"), Str(rt.base64Encode(torrent)), savepath, StrKey("filename"));
  }

  /** add() without metainfo sends the torrent as given under 'filename'. */
  lemma AddFilename(rt: Runtime, torrent: string, savepath: Option<string>, arguments: seq<(Key, Value)>)
    ensures var p := AddCall(rt, torrent, false, savepath, arguments).params;
      Lookup(p, StrKey("filename")) == Some(Str(torrent))
      && Lookup(p, StrKey("metainfo")) == Lookup(arguments, StrKey("metainfo"))
  {
    assert "filename"[0] != "metainfo"[0];
    AssignKeepsOthers(arguments, StrKey("filename"), Str(torrent), savepath, StrKey("metainfo"));
  }

  /** 'download-dir' is set to the save path when there is one, and left as the caller gave it otherwise. */
  lemma AddDownloadDir(rt: Runtime, torrent: string, metainfo: bool, savepath: Option<string>, arguments: seq<(Key, Value)>)
    ensures var p := AddCall(rt, torrent, metainfo, savepath, arguments).params;
      (savepath.Some? ==> Lookup(p, StrKey("download-dir")) == Some(Str(savepath.value)))
      && (savepath.None? ==> Lookup(p, StrKey("download-dir")) == Lookup(arguments, StrKey("download-dir")))
  {
    var t :=
      if metainfo then Assign(arguments, StrKey("metainfo"), Str(rt.base64Encode(torrent)))
      else Assign(arguments, StrKey("filename"), Str(torrent));
    if metainfo {
      AssignLookup(arguments, StrKey("metainfo"), Str(rt.base64Encode(torrent)));
    } else {
      AssignLookup(arguments, StrKey("filename"), Str(torrent));
    }
    if savepath.Some? {
      AssignLookup(t, StrKey("download-dir"), Str(savepath.value));
    }
  }

  /** No torrents, an empty list or a null, gives the empty collection. */
  lemma NoTorrentsGiveEmpty(rt: Runtime, torrents: Value)
    requires torrents == Null || torrents == Arr([])
    ensures InterpretGet(rt, Arr([(StrKey("arguments"), Arr([(StrKey("torrents"), torrents)]))])) == Ok(NoTorrents)
  {
    var data := Arr([(StrKey("arguments"), Arr([(StrKey("torrents"), torrents)]))]);
    assert DataGet(data, [StrKey("arguments"), StrKey("torrents")], Int(0)) == torrents;
  }

  /** Exactly one torrent comes back as that Torrent itself, two or more as a collection. */
  lemma GetCountsTorrents(rt: Runtime, data: Value)
    requires DataGet(data, [StrKey("arguments"), StrKey("torrents")], Int(0)).Arr?
    ensures var list := DataGet(data, [StrKey("arguments"), StrKey("torrents")], Int(0)).entries;
      (|list| == 0 ==> InterpretGet(rt, data) == Ok(NoTorrents))
      && (|list| == 1 ==> InterpretGet(rt, data) == Ok(OneTorrent(ArrayableItems(rt, list[0].1))))
      && (|list| > 1 ==>
            InterpretGet(rt, data).Ok? && InterpretGet(rt, data).value.ManyTorrents?
            && |InterpretGet(rt, data).value.all| == |list|
            && forall i | 0 <= i < |list| :: InterpretGet(rt, data).value.all[i] == ArrayableItems(rt, list[i].1))
  {
  }

  /**
   * The default of data_get is 0, which is not blank: a reply without 'arguments.torrents'
   * (a text body, say) comes back as one Torrent holding [0 => 0], not as an empty collection.
   */
  lemma MissingTorrentsGiveOneBogusTorrent(rt: Runtime, data: Value)
    requires !data.Arr?
    ensures InterpretGet(rt, data) == Ok(OneTorrent([(IntKey(0), Int(0))]))
  {
    assert DataGet(data, [StrKey("arguments"), StrKey("torrents")], Int(0)) == Int(0);
    assert ArrayableItems(rt, Int(0)) == [(IntKey(0), Int(0))];
  }

  /** A duplicate is fetched by its id, even when the reply also reports an added torrent. */
  lemma DuplicateTakesPrecedence(rt: Runtime, arguments: seq<(Key, Value)>, dup: seq<(Key, Value)>, result: Value)
    requires Lookup(arguments, StrKey("torrent-duplicate")) == Some(Arr(dup))
    ensures InterpretAdd(rt, Arr([(StrKey("arguments"), Arr(arguments)), (StrKey("result"), result)]))
         == Ok(Duplicate(Lookup(dup, StrKey("id")).GetOr(Null)))
  {
  }

  /** Without 'torrent-added' (and no duplicate), add() throws InvalidArgumentException carrying the result. */
  lemma NotAddedThrows(rt: Runtime, arguments: seq<(Key, Value)>, result: Value)
    requires !HasKey(arguments, StrKey("torrent-duplicate")) && !HasKey(arguments, StrKey("torrent-added"))
    ensures InterpretAdd(rt, Arr([(StrKey("arguments"), Arr(arguments)), (StrKey("result"), result)]))
         == Err(InvalidArgumentException(result))
  {
    var es := [(StrKey("arguments"), Arr(arguments)), (StrKey("result"), result)];
    assert es[1..] == [(StrKey("result"), result)];
    assert Lookup(es, StrKey("result")) == Some(result);
  }

  /** An added torrent is returned as the collection of its fields. */
  lemma AddedReturnsFields(rt: Runtime, arguments: seq<(Key, Value)>, added: Value, rest: seq<(Key, Value)>)
    requires !HasKey(arguments, StrKey("torrent-duplicate"))
    requires Lookup(arguments, StrKey("torrent-added")) == Some(added)
    ensures InterpretAdd(rt, Arr([(StrKey("arguments"), Arr(arguments))] + rest)) == Ok(Added(ArrayableItems(rt, added)))
  {
  }

  /** A reply that is not an array of arrays makes add() fail in the engine, not with a Transmission exception. */
  lemma NonArrayArgumentsFail(rt: Runtime, data: Value)
    requires !data.Arr? || !Index(data, StrKey("arguments")).value.Arr?
    ensures InterpretAdd(rt, data).Err? && InterpretAdd(rt, data).error.Engine?
  {
  }

  /** Without a non-null 'seedRatioLimited' the answer is -1. */
  lemma SeedRatioUnlimited(settings: seq<(Key, Value)>)
    requires !Isset(Arr(settings), StrKey("seedRatioLimited"))
    ensures SeedRatioLimitOf(Arr([(StrKey("arguments"), Arr(settings))])) == Int(-1)
  {
  }

  /** isset() is not truthiness: 'seedRatioLimited' of false still makes the stored limit the answer. */
  lemma SeedRatioLimitedFalseStillReturnsLimit(limit: Value)
    ensures SeedRatioLimitOf(Arr([(StrKey("arguments"), Arr([(StrKey("seedRatioLimited"), Bool(false)), (StrKey("seedRatioLimit"), limit)]))]))
         == limit
  {
    var settings := [(StrKey("seedRatioLimited"), Bool(false)), (StrKey("seedRatioLimit"), limit)];
    assert settings[1..] == [(StrKey("seedRatioLimit"), limit)];
    assert Lookup(settings, StrKey("seedRatioLimit")) == Some(limit);
  }

  /** portTest() answers the daemon's 'port-is-open' flag. */
  lemma PortTestReadsFlag(rt: Runtime, open_: bool, others: seq<(Key, Value)>)
    ensures PortTestReply(rt, Ok(Arr([(StrKey("arguments"), Arr([(StrKey("port-is-open"), Bool(open_))] + others))])))
         == Ok(open_)
  {
  }

  /** A reply without 'port-is-open' reads null, which the bool return type refuses. */
  lemma PortTestWithoutFlagFails(rt: Runtime, arguments: seq<(Key, Value)>)
    requires !HasKey(arguments, StrKey("port-is-open"))
    ensures PortTestReply(rt, Ok(Arr([(StrKey("arguments"), Arr(arguments))]))) == Err(Engine(TypeError(ReturnNotBool)))
  {
  }

  /** freeSpace() hands back the reply's 'arguments' array, and refuses anything else there. */
  lemma FreeSpaceReturnsArguments(data: Value)
    requires data.Arr? && HasKey(data.entries, StrKey("arguments"))
    ensures var arguments := Lookup(data.entries, StrKey("arguments")).value;
      FreeSpaceReply(Ok(data)) == (if arguments.Arr? then Ok(arguments) else Err(Engine(TypeError(ReturnNotArray))))
  {
  }
}
