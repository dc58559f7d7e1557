/**
 * Transmission\Models\Torrent: an AbstractModel over one torrent's fields, with the status,
 * error and seed-ratio tables. A torrent is given by the model's items and its
 * castingEnabled flag; its cast table and class name are the ones below.
 */
module TorrentModel {
  import opened Wrappers
  import opened PhpStrings
  import opened Php
  import opened Failures
  import opened Models
  import opened Commands
  import opened TransmissionClient

  const StatusStopped: int := 0
  const StatusCheckWait: int := 1
  const StatusCheck: int := 2
  const StatusDownloadWait: int := 3
  const StatusDownload: int := 4
  const StatusSeedWait: int := 5
  const StatusSeed: int := 6
  const StatusIsolated: int := 7

  const RatioUseGlobal: int := 0
  const RatioUseLocal: int := 1
  const RatioUnlimited: int := 2

  const ErrorNone: int := 0
  const ErrorTrackerWarning: int := 1
  const ErrorTrackerError: int := 2
  const ErrorLocalError: int := 3

  const TrackerInactive: int := 0
  const TrackerWaiting: int := 1
  const TrackerQueued: int := 2
  const TrackerActive: int := 3

  const ClassName: string := "Transmission\\Models\\Torrent"

  /** The torrent's cast table: dates to 'datetime', sizes to 'bytes'. */
  const Casts: map<string, string> := map[
    "doneDate" := "datetime", "startDate" := "datetime", "activityDate" := "datetime",
    "addedDate" := "datetime", "dateCreated" := "datetime",
    "haveValid" := "bytes", "haveUnchecked" := "bytes", "totalDone" := "bytes",
    "leftUntilDone" := "bytes", "totalSize" := "bytes", "sizeWhenDone" := "bytes"]

  const DateFields: set<string> := {"doneDate", "startDate", "activityDate", "addedDate", "dateCreated"}

  /** `$this->get($key, $default)` on a torrent. */
  function Attr(rt: Runtime, items: seq<(Key, Value)>, flag: bool, key: string, default: Value): Value {
    ModelGet(rt, Casts, items, flag, key, default, None)
  }

  /** `$this->get('status')`. */
  function Status(rt: Runtime, items: seq<(Key, Value)>, flag: bool): Value {
    Attr(rt, items, flag, "status", Null)
  }

  /** getName(). */
  function Name(rt: Runtime, items: seq<(Key, Value)>, flag: bool): Value {
    Attr(rt, items, flag, "name", Str("Unknown"))
  }

  /** getTotalDone($castingEnabled): the two uncast sizes added, then cast as 'totalDone'. */
  function TotalDone(rt: Runtime, items: seq<(Key, Value)>, flag: bool, castingEnabled: Option<bool>): (r: Result<Value, Failure>)
    ensures r.Ok? ==> HasKey(items, StrKey("haveValid")) && HasKey(items, StrKey("haveUnchecked"))
    ensures !HasKey(items, StrKey("haveValid")) || !HasKey(items, StrKey("haveUnchecked")) ==>
      r.Err? && r.error.BadMethodCallException?
  {
    SizeGettersNeedFields(rt, items, flag);
    var have := MagicCall(rt, Casts, ClassName, items, flag, "getHaveValid", [Bool(false)]);
    if have.Err? then have
    else
      var unchecked := MagicCall(rt, Casts, ClassName, items, flag, "getHaveUnchecked", [Bool(false)]);
      if unchecked.Err? then unchecked
      else
        match Add(rt, have.value, unchecked.value)
        case Err(e) => Err(Engine(e))
        case Ok(sum) => Ok(CastAttribute(rt, Casts, "totalDone", sum, castingEnabled.GetOr(flag)))
  }

  /** isStatus($status): a strict comparison with the status field. */
  predicate IsStatus(rt: Runtime, items: seq<(Key, Value)>, flag: bool, status: Value) {
    Status(rt, items, flag) == status
  }

  predicate IsStopped(rt: Runtime, items: seq<(Key, Value)>, flag: bool) {
    IsStatus(rt, items, flag, Int(StatusStopped))
  }

  predicate IsChecking(rt: Runtime, items: seq<(Key, Value)>, flag: bool) {
    IsStatus(rt, items, flag, Int(StatusCheck))
  }

  predicate IsDownloading(rt: Runtime, items: seq<(Key, Value)>, flag: bool) {
    IsStatus(rt, items, flag, Int(StatusDownload))
  }

  /** isQueued(): waiting to download or waiting to seed. */
  predicate IsQueued(rt: Runtime, items: seq<(Key, Value)>, flag: bool) {
    IsStatus(rt, items, flag, Int(StatusDownloadWait)) || IsStatus(rt, items, flag, Int(StatusSeedWait))
  }

  predicate IsSeeding(rt: Runtime, items: seq<(Key, Value)>, flag: bool) {
    IsStatus(rt, items, flag, Int(StatusSeed))
  }

  /** isDone(): `getLeftUntilDone(false) < 1`; the magic getter throws when the field is missing. */
  function IsDone(rt: Runtime, items: seq<(Key, Value)>, flag: bool): (r: Result<bool, Failure>)
    ensures r.Err? <==> !HasKey(items, StrKey("leftUntilDone"))
  {
    LeftUntilDoneGetter();
    match MagicCall(rt, Casts, ClassName, items, flag, "getLeftUntilDone", [Bool(false)])
    case Err(f) => Err(f)
    case Ok(left) => Ok(LessThanOne(rt, left))
  }

  /** getStatusString(): a loose `switch` on the status, its cases tried in order. */
  function StatusString(rt: Runtime, items: seq<(Key, Value)>, flag: bool): (r: string)
    ensures r in WorkingStatusNames || r in {"Seeding complete", "Paused", "Unknown", "Error"}
    ensures r == "Seeding complete" || r == "Paused" <==> LooseEqualsInt(rt, Status(rt, items, flag), StatusStopped)
  {
    var status := Status(rt, items, flag);
    if LooseEqualsInt(rt, status, StatusStopped) then
      (if Truthy(rt, Attr(rt, items, flag, "isFinished", Bool(false))) then "Seeding complete" else "Paused")
    else if LooseEqualsInt(rt, status, StatusCheckWait) then "Queued for verification"
    else if LooseEqualsInt(rt, status, StatusCheck) then "Verifying local data"
    else if LooseEqualsInt(rt, status, StatusDownloadWait) then "Queued for download"
    else if LooseEqualsInt(rt, status, StatusDownload) then "Downloading"
    else if LooseEqualsInt(rt, status, StatusSeedWait) then "Queued for seeding"
    else if LooseEqualsInt(rt, status, StatusSeed) then "Seeding"
    else if LooseEqualsNull(rt, status) then "Unknown"
    else "Error"
  }

  /** The names of statuses 1 to 6. */
  const WorkingStatusNames: seq<string> :=
    ["Queued for verification", "Verifying local data", "Queued for download", "Downloading", "Queued for seeding", "Seeding"]

  /** What seedRatioLimit($client) answers: ask the client, or a value of the torrent's own. */
  datatype RatioAnswer = AskClient | Answer(v: Value)

  /** seedRatioLimit($client)'s loose `switch` on the seed ratio mode. */
  function RatioChoice(rt: Runtime, items: seq<(Key, Value)>, flag: bool): (r: RatioAnswer)
    ensures r == AskClient <==> LooseEqualsInt(rt, Attr(rt, items, flag, "seedRatioMode", Null), RatioUseGlobal)
    ensures r.Answer? && r.v != Int(-1) ==> LooseEqualsInt(rt, Attr(rt, items, flag, "seedRatioMode", Null), RatioUseLocal)
  {
    var mode := Attr(rt, items, flag, "seedRatioMode", Null);
    if LooseEqualsInt(rt, mode, RatioUseGlobal) then AskClient
    else if LooseEqualsInt(rt, mode, RatioUseLocal) then Answer(Attr(rt, items, flag, "seedRatioLimit", Null))
    else Answer(Int(-1))
  }

  /**
   * seedRatioLimit($client): under the global mode the client's seedRatioLimit() and its
   * traffic; otherwise the torrent's answer, with the client left alone.
   */
  method SeedRatioLimit(rt: Runtime, items: seq<(Key, Value)>, flag: bool, client: Client) returns (r: Result<Value, Failure>)
    requires client.builder.Valid()
    modifies client.builder, client.builder.httpClient, client.builder.NextTransport()
    ensures RatioChoice(rt, items, flag) == AskClient ==>
      r == SeedRatioReply(old(client.Predict(SeedRatioLimitCall())).result)
      && client.Settled(old(client.Predict(SeedRatioLimitCall())), old(client.Snap()))
    ensures RatioChoice(rt, items, flag).Answer? ==>
      r == Ok(RatioChoice(rt, items, flag).v)
      && unchanged(client.builder, old(client.builder.httpClient), old(client.builder.NextTransport()))
  {
    var choice := RatioChoice(rt, items, flag);
    if choice.AskClient? {
      r := client.SeedRatioLimit();
    } else {
      r := Ok(choice.v);
    }
  }

  /** getErrorMessage(): the error string after a prefix the error code picks, or null. */
  function ErrorMessage(rt: Runtime, items: seq<(Key, Value)>, flag: bool): (r: Result<Value, Failure>)
    ensures var error := Attr(rt, items, flag, "error", Null);
      r != Ok(Null) ==> LooseEqualsInt(rt, error, ErrorTrackerWarning) || LooseEqualsInt(rt, error, ErrorTrackerError)
                        || LooseEqualsInt(rt, error, ErrorLocalError)
    ensures r.Ok? && r.value != Null ==> r.value.Str?
  {
    var text := Attr(rt, items, flag, "errorString", Null);
    var error := Attr(rt, items, flag, "error", Null);
    if LooseEqualsInt(rt, error, ErrorTrackerWarning) then Prefixed("Tracker returned a warning: ", rt, text)
    else if LooseEqualsInt(rt, error, ErrorTrackerError) then Prefixed("Tracker returned an error: ", rt, text)
    else if LooseEqualsInt(rt, error, ErrorLocalError) then Prefixed("Error: ", rt, text)
    else Ok(Null)
  }

  /** `$prefix . $v`. */
  function Prefixed(prefix: string, rt: Runtime, v: Value): Result<Value, Failure> {
    match ToText(rt, v)
    case Ok(t) => Ok(Str(prefix + t))
    case Err(e) => Err(Engine(e))
  }

  // ---------------------------------------------------------------- lemmas

  /** A field that starts with a letter and has no cast is read as it is stored, whatever the flag. */
  lemma PlainField(rt: Runtime, items: seq<(Key, Value)>, flag: bool, key: string, default: Value)
    requires |key| > 0 && ('a' <= key[0] <= 'z' || 'A' <= key[0] <= 'Z') && key !in Casts
    ensures Attr(rt, items, flag, key, default) == CollectionGet(items, StrKey(key), default)
  {
    LetterKeyIsString(key);
  }

  /** The status is the raw 'status' field, null when absent. */
  lemma StatusIsRaw(rt: Runtime, items: seq<(Key, Value)>, flag: bool)
    ensures Status(rt, items, flag) == CollectionGet(items, StrKey("status"), Null)
  {
    PlainField(rt, items, flag, "status", Null);
  }

  /** Only the five date fields are ever cast; 'bytes' is a type the Formatter passes through. */
  lemma OnlyDatesAreCast(rt: Runtime, key: string, v: Value, enabled: bool)
    ensures key !in DateFields ==> CastAttribute(rt, Casts, key, v, enabled) == v
    ensures key in DateFields && enabled ==> CastAttribute(rt, Casts, key, v, enabled) == FormatterCast(rt, "datetime", v)
  {
    if key in Casts && key !in DateFields {
      assert Casts[key] == "bytes";
      FormatterPassesThrough(rt, "bytes", v);
    }
  }

  /** getName() is the 'name' field when the torrent has one, else 'Unknown'. */
  lemma NameOrUnknown(rt: Runtime, items: seq<(Key, Value)>, flag: bool)
    ensures HasKey(items, StrKey("name")) ==> Name(rt, items, flag) == Lookup(items, StrKey("name")).value
    ensures !HasKey(items, StrKey("name")) ==> Name(rt, items, flag) == Str("Unknown")
  {
    PlainField(rt, items, flag, "name", Str("Unknown"));
  }

  /** Statuses 1 to 6 have their names; the table is in the order of the constants. */
  lemma WorkingStatusNamed(rt: Runtime, items: seq<(Key, Value)>, flag: bool, i: int)
    requires 1 <= i <= 6 && Status(rt, items, flag) == Int(i)
    ensures StatusString(rt, items, flag) == WorkingStatusNames[i - 1]
  {
  }

  /**
   * A stopped torrent is 'Seeding complete' or 'Paused' by its 'isFinished' field; so is a
   * torrent with no status at all, since null loosely equals 0, though isStopped() is false for it.
   */
  lemma StoppedNamed(rt: Runtime, items: seq<(Key, Value)>, flag: bool)
    requires Status(rt, items, flag) == Int(StatusStopped) || Status(rt, items, flag) == Null
    ensures StatusString(rt, items, flag) == (if Truthy(rt, Attr(rt, items, flag, "isFinished", Bool(false))) then "Seeding complete" else "Paused")
    ensures Status(rt, items, flag) == Null ==> !IsStopped(rt, items, flag)
  {
  }

  /** Any other integer status, STATUS_ISOLATED among them, is 'Error'. */
  lemma OtherStatusIsError(rt: Runtime, items: seq<(Key, Value)>, flag: bool, i: int)
    requires Status(rt, items, flag) == Int(i) && !(0 <= i <= 6)
    ensures StatusString(rt, items, flag) == "Error"
  {
  }

  /** 'Unknown' is reached exactly for a status of '' or []: null is taken by the first case. */
  lemma UnknownStatusExactly(rt: Runtime, items: seq<(Key, Value)>, flag: bool)
    ensures StatusString(rt, items, flag) == "Unknown"
        <==> Status(rt, items, flag) == Str("") || Status(rt, items, flag) == Arr([])
  {
    var status := Status(rt, items, flag);
    if status == Str("") {
      assert !IsNumericString("");
    }
  }

  /**
   * isQueued() holds exactly for the integer statuses 3 and 5; isStopped(), isChecking(),
   * isDownloading() and isSeeding() only for the integers 0, 2, 4 and 6.
   */
  lemma QueuedExactly(rt: Runtime, items: seq<(Key, Value)>, flag: bool)
    ensures IsQueued(rt, items, flag) <==> Status(rt, items, flag) in {Int(3), Int(5)}
    ensures IsStopped(rt, items, flag) <==> Status(rt, items, flag) == Int(0)
    ensures IsChecking(rt, items, flag) <==> Status(rt, items, flag) == Int(2)
    ensures IsDownloading(rt, items, flag) <==> Status(rt, items, flag) == Int(4)
    ensures IsSeeding(rt, items, flag) <==> Status(rt, items, flag) == Int(6)
  {
  }

  /** getLeftUntilDone() reads the attribute 'leftUntilDone', a string key. */
  lemma LeftUntilDoneGetter()
    ensures StartsWith("getLeftUntilDone", "get") && Camel(After("getLeftUntilDone", "get")) == "leftUntilDone"
    ensures ArrayKey("leftUntilDone") == StrKey("leftUntilDone")
  {
    GetterAttribute("getLeftUntilDone", "LeftUntilDone", "leftUntilDone");
    LetterKeyIsString("leftUntilDone");
  }

  /** getHaveValid() reads the attribute 'haveValid', a string key. */
  lemma HaveValidGetter()
    ensures StartsWith("getHaveValid", "get") && Camel(After("getHaveValid", "get")) == "haveValid"
    ensures ArrayKey("haveValid") == StrKey("haveValid")
  {
    GetterAttribute("getHaveValid", "HaveValid", "haveValid");
    LetterKeyIsString("haveValid");
  }

  /** getHaveUnchecked() reads the attribute 'haveUnchecked', a string key. */
  lemma HaveUncheckedGetter()
    ensures StartsWith("getHaveUnchecked", "get") && Camel(After("getHaveUnchecked", "get")) == "haveUnchecked"
    ensures ArrayKey("haveUnchecked") == StrKey("haveUnchecked")
  {
    GetterAttribute("getHaveUnchecked", "HaveUnchecked", "haveUnchecked");
    LetterKeyIsString("haveUnchecked");
  }

  /** getHaveValid(false) and getHaveUnchecked(false) answer exactly when the field is there, and throw BadMethodCallException otherwise. */
  lemma SizeGettersNeedFields(rt: Runtime, items: seq<(Key, Value)>, flag: bool)
    ensures var have := MagicCall(rt, Casts, ClassName, items, flag, "getHaveValid", [Bool(false)]);
      (have.Ok? <==> HasKey(items, StrKey("haveValid"))) && (have.Err? ==> have.error.BadMethodCallException?)
    ensures var unchecked := MagicCall(rt, Casts, ClassName, items, flag, "getHaveUnchecked", [Bool(false)]);
      (unchecked.Ok? <==> HasKey(items, StrKey("haveUnchecked"))) && (unchecked.Err? ==> unchecked.error.BadMethodCallException?)
  {
    HaveValidGetter();
    HaveUncheckedGetter();
  }

  /** isDone() compares 'leftUntilDone', uncast, with 1; without that field it throws. */
  lemma DoneExactly(rt: Runtime, items: seq<(Key, Value)>, flag: bool)
    ensures HasKey(items, StrKey("leftUntilDone")) ==>
      IsDone(rt, items, flag) == Ok(LessThanOne(rt, Lookup(items, StrKey("leftUntilDone")).value))
    ensures !HasKey(items, StrKey("leftUntilDone")) ==>
      IsDone(rt, items, flag) == Err(BadMethodCallException(NoSuchMethod(ClassName, "getLeftUntilDone")))
  {
    LeftUntilDoneGetter();
  }

  /** 'totalDone' casts as 'bytes', which the Formatter passes through. */
  lemma TotalDoneNeverCast(rt: Runtime, v: Value, enabled: bool)
    ensures CastAttribute(rt, Casts, "totalDone", v, enabled) == v
  {
    assert Casts["totalDone"] == "bytes";
    FormatterPassesThrough(rt, "bytes", v);
  }

  /**
   * getTotalDone() is the sum of the two uncast sizes under any flag, since 'totalDone' casts
   * as 'bytes'.
   */
  lemma TotalDoneIsUncastSum(rt: Runtime, items: seq<(Key, Value)>, flag: bool, castingEnabled: Option<bool>)
    requires HasKey(items, StrKey("haveValid")) && HasKey(items, StrKey("haveUnchecked"))
    ensures TotalDone(rt, items, flag, castingEnabled)
         == (match Add(rt, Lookup(items, StrKey("haveValid")).value, Lookup(items, StrKey("haveUnchecked")).value)
             case Ok(sum) => Ok(sum)
             case Err(e) => Err(Engine(e)))
  {
    HaveValidGetter();
    HaveUncheckedGetter();
    match Add(rt, Lookup(items, StrKey("haveValid")).value, Lookup(items, StrKey("haveUnchecked")).value)
    case Ok(sum) => TotalDoneNeverCast(rt, sum, castingEnabled.GetOr(flag));
    case Err(_) =>
  }

  /** Without a 'haveValid' field, getTotalDone() throws from getHaveValid(). */
  lemma TotalDoneNeedsHaveValid(rt: Runtime, items: seq<(Key, Value)>, flag: bool, castingEnabled: Option<bool>)
    requires !HasKey(items, StrKey("haveValid"))
    ensures TotalDone(rt, items, flag, castingEnabled) == Err(BadMethodCallException(NoSuchMethod(ClassName, "getHaveValid")))
  {
    HaveValidGetter();
  }

  /** The error table: codes 1 to 3 prefix the error string; anything else gives null. */
  lemma ErrorMessages(rt: Runtime, items: seq<(Key, Value)>, flag: bool, t: string)
    requires Attr(rt, items, flag, "errorString", Null) == Str(t)
    ensures Attr(rt, items, flag, "error", Null) == Int(ErrorTrackerWarning) ==>
      ErrorMessage(rt, items, flag) == Ok(Str("Tracker returned a warning: " + t))
    ensures Attr(rt, items, flag, "error", Null) == Int(ErrorTrackerError) ==>
      ErrorMessage(rt, items, flag) == Ok(Str("Tracker returned an error: " + t))
    ensures Attr(rt, items, flag, "error", Null) == Int(ErrorLocalError) ==>
      ErrorMessage(rt, items, flag) == Ok(Str("Error: " + t))
    ensures Attr(rt, items, flag, "error", Null) in {Null, Int(ErrorNone)} ==> ErrorMessage(rt, items, flag) == Ok(Null)
  {
  }

  /** Any integer error code outside 1 to 3 gives null. */
  lemma OtherErrorIsNull(rt: Runtime, items: seq<(Key, Value)>, flag: bool, i: int)
    requires Attr(rt, items, flag, "error", Null) == Int(i) && !(1 <= i <= 3)
    ensures ErrorMessage(rt, items, flag) == Ok(Null)
  {
  }

  /**
   * The ratio table: mode 0 asks the client, and so does a torrent without a mode, since null
   * loosely equals 0; mode 1 answers its own limit; mode 2 and any other integer answer -1.
   */
  lemma RatioTable(rt: Runtime, items: seq<(Key, Value)>, flag: bool)
    ensures var mode := Attr(rt, items, flag, "seedRatioMode", Null);
      mode in {Null, Int(RatioUseGlobal)} ==> RatioChoice(rt, items, flag) == AskClient
    ensures Attr(rt, items, flag, "seedRatioMode", Null) == Int(RatioUseLocal) ==>
      RatioChoice(rt, items, flag) == Answer(Attr(rt, items, flag, "seedRatioLimit", Null))
    ensures forall i: int | Attr(rt, items, flag, "seedRatioMode", Null) == Int(i) && i != 0 && i != 1 ::
      RatioChoice(rt, items, flag) == Answer(Int(-1))
  {
  }
}
