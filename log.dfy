/**
 * `log({ url, status, method, message, extra })`: one coloured console line, mirrored into the log
 * store under the id found in `extra` or the current global log id.
 */
module Log {
  import opened Common
  import opened JsStr
  import opened Json
  import opened LogStore

  /** `status`: a number or a string. */
  datatype Status = SNum(n: int) | SStr(s: string)

  /** The chalk styles the line uses. */
  datatype Style = Gray | White | WhiteBright | BlueBold | CyanUnderline | Red | Yellow | Magenta | Green | Cyan

  datatype LogOptions = LogOptions(url: Option<string>, status: Option<Status>, httpMethod: Option<string>,
                                   message: Option<string>, extra: Option<map<string, Json>>)

  /** What a piece of the line shows. */
  datatype Field = TimeField | MethodField | UrlField | StatusField | MessageField | ExtraField

  /** One styled piece of the console line. */
  datatype Piece = Piece(field: Field, style: Style, text: string)

  predicate StatusTruthy(s: Status) {
    match s
    case SNum(n) => n != 0
    case SStr(t) => t != ""
  }

  /** `statusColor`: a colour for a truthy numeric status by its hundreds, white otherwise. */
  function StatusColor(status: Option<Status>): Style {
    if status.Some? && StatusTruthy(status.value) && status.value.SNum? then
      var n := status.value.n;
      if n >= 500 then Red
      else if n >= 400 then Yellow
      else if n >= 300 then Magenta
      else if n >= 200 then Green
      else Cyan
    else White
  }

  /** Each colour belongs to exactly one range of numeric statuses; strings, 0 and no status stay white. */
  lemma StatusColorFacts(status: Option<Status>)
    ensures var c := StatusColor(status);
      var num := status.Some? && status.value.SNum? && status.value.n != 0;
      var n := if num then status.value.n else 0;
      && (c == Red <==> num && n >= 500)
      && (c == Yellow <==> num && 400 <= n < 500)
      && (c == Magenta <==> num && 300 <= n < 400)
      && (c == Green <==> num && 200 <= n < 300)
      && (c == Cyan <==> num && n < 200)
      && (c == White <==> !num)
  {
  }

  /** `${status}`. */
  function StatusText(s: Status): string {
    match s
    case SNum(n) => IntToString(n)
    case SStr(t) => t
  }

  /** The field shown at position `k` of the line. */
  function FieldAt(k: nat): Field
    requires k <= 5
  {
    [TimeField, MethodField, UrlField, StatusField, MessageField, ExtraField][k]
  }

  function FieldRank(f: Field): nat {
    match f
    case TimeField => 0
    case MethodField => 1
    case UrlField => 2
    case StatusField => 3
    case MessageField => 4
    case ExtraField => 5
  }

  /** Whether `logMsg` gets a piece for `f`: the status whenever it is given, the rest when truthy. */
  predicate Shown(o: LogOptions, f: Field) {
    match f
    case TimeField => true
    case MethodField => o.httpMethod.Some? && o.httpMethod.value != ""
    case UrlField => o.url.Some? && o.url.value != ""
    case StatusField => o.status.Some?
    case MessageField => o.message.Some? && o.message.value != ""
    case ExtraField => o.extra.Some?
  }

  /** The piece for `f`; `stringify` is `JSON.stringify`. */
  function PieceFor(timestamp: string, o: LogOptions, stringify: Json -> string, f: Field): Piece {
    match f
    case TimeField => Piece(TimeField, Gray, timestamp)
    case MethodField => Piece(MethodField, BlueBold, o.httpMethod.GetOr(""))
    case UrlField => Piece(UrlField, CyanUnderline, o.url.GetOr(""))
    case StatusField => Piece(StatusField, StatusColor(o.status), if o.status.Some? then StatusText(o.status.value) else "")
    case MessageField => Piece(MessageField, WhiteBright, o.message.GetOr(""))
    case ExtraField => Piece(ExtraField, Gray, stringify(JObj(o.extra.GetOr(map[]))))
  }

  /** The pieces for the fields up to position `k`. */
  function LineUpTo(timestamp: string, o: LogOptions, stringify: Json -> string, k: nat): seq<Piece>
    requires k <= 5
  {
    (if k == 0 then [] else LineUpTo(timestamp, o, stringify, k - 1))
    + (if Shown(o, FieldAt(k)) then [PieceFor(timestamp, o, stringify, FieldAt(k))] else [])
  }

  /** The pieces of `logMsg`, in order. */
  function Line(timestamp: string, o: LogOptions, stringify: Json -> string): seq<Piece> {
    LineUpTo(timestamp, o, stringify, 5)
  }

  /** Whether the line has a piece for `f`. */
  predicate Shows(line: seq<Piece>, f: Field) {
    exists i :: 0 <= i < |line| && line[i].field == f
  }

  /** Appending at most one piece of a later field keeps the order. */
  lemma AppendPiece(prev: seq<Piece>, add: seq<Piece>, k: nat)
    requires |add| <= 1 && (add != [] ==> FieldRank(add[0].field) == k)
    requires forall i :: 0 <= i < |prev| ==> FieldRank(prev[i].field) < k
    requires forall i, j :: 0 <= i < j < |prev| ==> FieldRank(prev[i].field) < FieldRank(prev[j].field)
    ensures var line := prev + add;
      && (forall i :: 0 <= i < |line| ==> FieldRank(line[i].field) <= k)
      && (forall i, j :: 0 <= i < j < |line| ==> FieldRank(line[i].field) < FieldRank(line[j].field))
      && (forall f :: Shows(line, f) <==> Shows(prev, f) || (add != [] && add[0].field == f))
  {
    var line := prev + add;
    forall f ensures Shows(line, f) <==> Shows(prev, f) || (add != [] && add[0].field == f) {
      if Shows(line, f) {
        var i :| 0 <= i < |line| && line[i].field == f;
        if i < |prev| {
          assert prev[i] == line[i];
        }
      }
      if Shows(prev, f) {
        var i :| 0 <= i < |prev| && prev[i].field == f;
        assert line[i] == prev[i];
      }
      if add != [] && add[0].field == f {
        assert line[|prev|] == add[0];
      }
    }
  }

  lemma {:induction false} LineUpToLayout(timestamp: string, o: LogOptions, stringify: Json -> string, k: nat)
    requires k <= 5
    ensures var line := LineUpTo(timestamp, o, stringify, k);
      && (forall i :: 0 <= i < |line| ==> FieldRank(line[i].field) <= k && line[i] == PieceFor(timestamp, o, stringify, line[i].field))
      && (forall i, j :: 0 <= i < j < |line| ==> FieldRank(line[i].field) < FieldRank(line[j].field))
      && (forall f :: Shows(line, f) <==> FieldRank(f) <= k && Shown(o, f))
  {
    var line := LineUpTo(timestamp, o, stringify, k);
    var prev := if k == 0 then [] else LineUpTo(timestamp, o, stringify, k - 1);
    var f := FieldAt(k);
    var add := if Shown(o, f) then [PieceFor(timestamp, o, stringify, f)] else [];
    assert FieldRank(f) == k && PieceFor(timestamp, o, stringify, f).field == f;
    assert line == prev + add;
    if k > 0 {
      LineUpToLayout(timestamp, o, stringify, k - 1);
    }
    AppendPiece(prev, add, k);
    forall i | 0 <= i < |line| ensures line[i] == PieceFor(timestamp, o, stringify, line[i].field) {
      if i < |prev| {
        assert line[i] == prev[i];
      } else {
        assert line[i] == add[0];
      }
    }
    forall g ensures Shows(line, g) <==> FieldRank(g) <= k && Shown(o, g) {
      if FieldRank(g) == k {
        assert g == f;
      }
    }
  }

  /**
   * The line starts with the timestamp; the pieces follow the order timestamp, method, url, status,
   * message, extra; the status is shown whenever it is given, even when not coloured; the other
   * optional pieces are shown when truthy.
   */
  lemma LineLayout(timestamp: string, o: LogOptions, stringify: Json -> string)
    ensures var line := Line(timestamp, o, stringify);
      && line != [] && line[0] == Piece(TimeField, Gray, timestamp)
      && (forall i, j :: 0 <= i < j < |line| ==> FieldRank(line[i].field) < FieldRank(line[j].field))
      && (Shows(line, StatusField) <==> o.status.Some?)
      && (Shows(line, MethodField) <==> o.httpMethod.Some? && o.httpMethod.value != "")
      && (Shows(line, UrlField) <==> o.url.Some? && o.url.value != "")
      && (Shows(line, MessageField) <==> o.message.Some? && o.message.value != "")
      && (Shows(line, ExtraField) <==> o.extra.Some?)
      && (forall i :: 0 <= i < |line| && line[i].field == StatusField ==>
            line[i] == Piece(StatusField, StatusColor(o.status), StatusText(o.status.value)))
  {
    LineUpToLayout(timestamp, o, stringify, 5);
    var line := Line(timestamp, o, stringify);
    assert Shows(line, TimeField);
    var t :| 0 <= t < |line| && line[t].field == TimeField;
    assert FieldRank(line[0].field) <= FieldRank(line[t].field);
  }

  /** `extra?.logId || extra?.loggerId || globalThis.__CURRENT_LOG_ID__`. */
  function MirrorId(extra: Option<map<string, Json>>, current: Option<Json>): Option<Json> {
    var logId := if extra.Some? && "logId" in extra.value then Some(extra.value["logId"]) else None;
    var loggerId := if extra.Some? && "loggerId" in extra.value then Some(extra.value["loggerId"]) else None;
    if Truthy(logId) then logId else if Truthy(loggerId) then loggerId else current
  }

  /**
   * An id is found exactly when one of the three is truthy, and it is the first truthy one in the
   * order `logId`, `loggerId`, current id.
   */
  lemma MirrorIdFacts(extra: Option<map<string, Json>>, current: Option<Json>)
    ensures var logId := if extra.Some? && "logId" in extra.value then Some(extra.value["logId"]) else None;
      var loggerId := if extra.Some? && "loggerId" in extra.value then Some(extra.value["loggerId"]) else None;
      var m := MirrorId(extra, current);
      && (Truthy(m) <==> Truthy(logId) || Truthy(loggerId) || Truthy(current))
      && (Truthy(logId) ==> m == logId)
      && (!Truthy(logId) && Truthy(loggerId) ==> m == loggerId)
      && (!Truthy(logId) && !Truthy(loggerId) ==> m == current)
  {
  }

  /** The id the entry is mirrored under, `String(maybeLogId)`, or "" when there is none. */
  function MirrorKey(o: LogOptions, current: Option<Json>): string {
    var m := MirrorId(o.extra, current);
    if Truthy(m) then ToStr(m.value) else ""
  }

  /** `String(status ?? "info")`. */
  function Level(status: Option<Status>): string {
    if status.Some? then StatusText(status.value) else "info"
  }

  /** The entry `addServerLog` stores for this call, at `time`. */
  function MirrorEntry(o: LogOptions, time: string): Entry {
    Entry(time, Level(o.status), o.message.GetOr(""), if o.extra.Some? then Some(JObj(o.extra.value)) else None)
  }

  /** The level is the status as text, and "info" without one; the message defaults to "". */
  lemma MirrorEntryFacts(o: LogOptions, time: string)
    ensures var e := MirrorEntry(o, time);
      && (o.status.None? ==> e.level == "info")
      && (o.status.Some? && o.status.value.SStr? ==> e.level == o.status.value.s)
      && (o.status.Some? && o.status.value.SNum? ==> NumberOfString(e.level) == Some(o.status.value.n))
      && (o.message.None? ==> e.message == "")
      && (o.message.Some? ==> e.message == o.message.value)
      && (e.extra.Some? <==> o.extra.Some?)
  {
    if o.status.Some? && o.status.value.SNum? {
      NumberOfIntString(o.status.value.n);
    }
  }

  /**
   * `log(o)`: returns the console line; `timestamp` and `time` are the two clock readings and
   * `current` the global log id. A throw while mirroring is swallowed.
   */
  method Log(store: LogStore, o: LogOptions, timestamp: string, time: string, current: Option<Json>,
             stringify: Json -> string, throws: Callback -> bool) returns (line: seq<Piece>)
    requires store.Valid()
    modifies store
    ensures store.Valid()
    ensures line == Line(timestamp, o, stringify)
    ensures var id := MirrorKey(o, current);
      && store.listeners == old(store.listeners)
      && store.order == (if id == "" || id in old(store.buffers) then old(store.order) else old(store.order) + [id])
      && (id == "" ==> store.buffers == old(store.buffers) && store.delivered == old(store.delivered))
      && (id != "" ==>
            && store.buffers == old(store.buffers)[id := Appended(old(store.GetServerLogs(id)), MirrorEntry(o, time))]
            && store.delivered == old(store.delivered) + Notified(old(store.Subscribers(id)), MirrorEntry(o, time), throws))
  {
    line := Format(timestamp, o, stringify);
    var maybeLogId := MirrorId(o.extra, current);
    if Truthy(maybeLogId) {
      var e := MirrorEntry(o, time);
      var _ := store.AddServerLog(ToStr(maybeLogId.value), e.level, e.message, e.extra, time, throws);
    }
  }

  /** The building of `logMsg`, piece by piece. */
  method Format(timestamp: string, o: LogOptions, stringify: Json -> string) returns (line: seq<Piece>)
    ensures line == Line(timestamp, o, stringify)
  {
    line := [Piece(TimeField, Gray, timestamp)];
    assert line == LineUpTo(timestamp, o, stringify, 0);
    if o.httpMethod.Some? && o.httpMethod.value != "" {
      line := line + [Piece(MethodField, BlueBold, o.httpMethod.value)];
    }
    assert line == LineUpTo(timestamp, o, stringify, 1);
    if o.url.Some? && o.url.value != "" {
      line := line + [Piece(UrlField, CyanUnderline, o.url.value)];
    }
    assert line == LineUpTo(timestamp, o, stringify, 2);
    if o.status.Some? {
      line := line + [Piece(StatusField, StatusColor(o.status), StatusText(o.status.value))];
    }
    assert line == LineUpTo(timestamp, o, stringify, 3);
    if o.message.Some? && o.message.value != "" {
      line := line + [Piece(MessageField, WhiteBright, o.message.value)];
    }
    assert line == LineUpTo(timestamp, o, stringify, 4);
    if o.extra.Some? {
      line := line + [Piece(ExtraField, Gray, stringify(JObj(o.extra.value)))];
    }
  }
}
