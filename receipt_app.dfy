/**
 * The S3-triggered receipt handler (`app.py`): for every uploaded object it
 * pulls the base64 payload out of the stored text, asks the model to read
 * the receipt, classifies the answer and writes exactly one DynamoDB item.
 * S3, DynamoDB, the model, the clock and `json.loads` are inputs: each record
 * carries the object's text, the model's answer and the clock readings, and
 * the parser and Python's `str()` of a non-string value are parameters.
 */
module ReceiptApp {
  import opened Wrappers
  import opened Json
  import opened Text

  // ----- decimalize -----

  /** `decimalize`: every float becomes the Decimal of its text, recursively. */
  function Decimalize(v: Value): Value
  {
    match v
    case Float(f) => Decimal(f)
    case List(xs) => List(seq(|xs|, i requires 0 <= i < |xs| => Decimalize(xs[i])))
    case Object(fs) => Object(DecimalizeFields(fs))
    case _ => v
  }

  /** The dict comprehension of `decimalize`: the same keys in the same order, each value decimalized. */
  function DecimalizeFields(fs: seq<Field>): (r: seq<Field>)
    ensures |r| == |fs|
    ensures Keys(r) == Keys(fs)
  {
    seq(|fs|, i requires 0 <= i < |fs| => Field(fs[i].key, Decimalize(fs[i].value)))
  }

  /** No float anywhere in the tree. */
  predicate FloatFree(v: Value)
  {
    match v
    case Float(_) => false
    case List(xs) => forall i :: 0 <= i < |xs| ==> FloatFree(xs[i])
    case Object(fs) => forall i :: 0 <= i < |fs| ==> FloatFree(fs[i].value)
    case _ => true
  }

  /**
   * `b` is `a` with every float leaf replaced by the Decimal of the same
   * number: same dict keys in the same order, same list lengths, every other
   * leaf identical.
   */
  predicate SameShape(a: Value, b: Value)
    decreases a
  {
    match a
    case Float(f) => b == Decimal(f)
    case List(xs) =>
      b.List? && |b.items| == |xs| && forall i :: 0 <= i < |xs| ==> SameShape(xs[i], b.items[i])
    case Object(fs) =>
      b.Object? && Keys(b.fields) == Keys(fs) &&
      forall i :: 0 <= i < |fs| ==> SameShape(fs[i].value, b.fields[i].value)
    case _ => b == a
  }

  lemma {:induction false} DecimalizeKeepsShape(v: Value)
    ensures SameShape(v, Decimalize(v))
    decreases v
  {
    match v
    case List(xs) =>
      forall i | 0 <= i < |xs| ensures SameShape(xs[i], Decimalize(v).items[i]) {
        DecimalizeKeepsShape(xs[i]);
      }
    case Object(fs) =>
      forall i | 0 <= i < |fs| ensures SameShape(fs[i].value, Decimalize(v).fields[i].value) {
        assert Decimalize(v).fields[i].value == Decimalize(fs[i].value);
        DecimalizeKeepsShape(fs[i].value);
      }
    case _ =>
  }

  lemma {:induction false} DecimalizeRemovesFloats(v: Value)
    ensures FloatFree(Decimalize(v))
    decreases v
  {
    match v
    case List(xs) =>
      forall i | 0 <= i < |xs| ensures FloatFree(Decimalize(v).items[i]) {
        DecimalizeRemovesFloats(xs[i]);
      }
    case Object(fs) =>
      forall i | 0 <= i < |fs| ensures FloatFree(Decimalize(v).fields[i].value) {
        assert Decimalize(v).fields[i].value == Decimalize(fs[i].value);
        DecimalizeRemovesFloats(fs[i].value);
      }
    case _ =>
  }

  /** A tree without floats (str, int, bool, None, Decimal leaves) is left as it is. */
  lemma {:induction false} DecimalizeFixesFloatFree(v: Value)
    requires FloatFree(v)
    ensures Decimalize(v) == v
    decreases v
  {
    match v
    case List(xs) =>
      forall i | 0 <= i < |xs| ensures Decimalize(xs[i]) == xs[i] {
        DecimalizeFixesFloatFree(xs[i]);
      }
      assert Decimalize(v).items == xs;
    case Object(fs) =>
      forall i | 0 <= i < |fs| ensures Decimalize(fs[i].value) == fs[i].value {
        DecimalizeFixesFloatFree(fs[i].value);
      }
      assert DecimalizeFields(fs) == fs;
    case _ =>
  }

  lemma DecimalizeIdempotent(v: Value)
    ensures Decimalize(Decimalize(v)) == Decimalize(v)
  {
    DecimalizeRemovesFloats(v);
    DecimalizeFixesFloatFree(Decimalize(v));
  }

  // ----- extract_b64 -----

  /** Position of the first `c` in `s`, or `|s|` when there is none. */
  function IndexOf(s: string, c: char): (i: nat)
    ensures i <= |s| && c !in s[..i]
    ensures i < |s| ==> s[i] == c
  {
    if s == [] || s[0] == c then 0
    else
      var j := IndexOf(s[1..], c);
      assert s[..j + 1] == [s[0]] + s[1..][..j];
      j + 1
  }

  /** `s` starts with the lower-case text `lit`, letters compared ignoring case. */
  predicate CiPrefix(s: string, lit: string)
  {
    |lit| <= |s| && Lower(s[..|lit|]) == lit
  }

  /**
   * `DATA_URL_RE.match(s)`, the pattern `^data:(?P<mime>[^;]+);base64,(?P<b64>.+)$`
   * ignoring case: the `b64` group when `s` matches. The mime type runs to the
   * first ';', and `.` does not match a newline. This agrees with the regex
   * only on stripped text: Python's `$` also matches before one final
   * newline, which `extract_b64` has already removed by `strip()`.
   */
  function MatchDataUrl(s: string): Option<string>
  {
    if CiPrefix(s, "data:") then
      var rest := s[5..];
      var i := IndexOf(rest, ';');
      if 1 <= i && i + 8 < |rest| && CiPrefix(rest[i..], ";base64,") && '\n' !in rest[i + 8..]
      then Some(rest[i + 8..])
      else None
    else None
  }

  /**
   * A match is `data:` (any case), a non-empty mime type without ';',
   * `;base64,` (any case), and a non-empty payload without a newline,
   * which is what the match yields.
   */
  lemma MatchDataUrlSound(s: string)
    requires MatchDataUrl(s).Some?
    ensures var b := MatchDataUrl(s).value; var n := |s| - |b| - 8;
      && 5 < n && b != [] && '\n' !in b
      && Lower(s[..5]) == "data:" && ';' !in s[5..n]
      && Lower(s[n..n + 8]) == ";base64," && s[n + 8..] == b
  {
    var rest := s[5..];
    var i := IndexOf(rest, ';');
    assert s[5 + i..5 + i + 8] == rest[i..][..8] && s[5..5 + i] == rest[..i];
  }

  /** `extract_b64`: the payload of a base64 data URL, else the stripped text. */
  function ExtractB64(text: string): string
  {
    match MatchDataUrl(Strip(text))
    case Some(b64) => b64
    case None => Strip(text)
  }

  /** Any data URL with a non-empty mime type free of ';' and a one-line payload matches, with that payload. */
  lemma MatchDataUrlOf(scheme: string, mime: string, marker: string, b64: string)
    requires |scheme| == 5 && Lower(scheme) == "data:"
    requires |marker| == 8 && Lower(marker) == ";base64,"
    requires mime != [] && ';' !in mime
    requires b64 != [] && '\n' !in b64
    ensures MatchDataUrl(scheme + mime + marker + b64) == Some(b64)
  {
    var s := scheme + mime + marker + b64;
    assert s[..5] == scheme;
    var rest := s[5..];
    assert rest == mime + marker + b64;
    assert rest[..|mime|] == mime;
    assert rest[|mime|] == marker[0] == Lower(marker)[0];
    assert IndexOf(rest, ';') == |mime|;
    assert rest[|mime|..][..8] == marker;
    assert rest[|mime| + 8..] == b64;
  }

  /** Such a data URL, with no trailing whitespace, yields its payload. */
  lemma ExtractB64OfDataUrl(scheme: string, mime: string, marker: string, b64: string)
    requires |scheme| == 5 && Lower(scheme) == "data:"
    requires |marker| == 8 && Lower(marker) == ";base64,"
    requires mime != [] && ';' !in mime
    requires b64 != [] && '\n' !in b64 && !IsSpace(b64[|b64| - 1])
    ensures ExtractB64(scheme + mime + marker + b64) == b64
  {
    var s := scheme + mime + marker + b64;
    assert s[0] == scheme[0] && LowerChar(scheme[0]) == Lower(scheme)[0];
    assert s[|s| - 1] == b64[|b64| - 1];
    StripUnchanged(s);
    MatchDataUrlOf(scheme, mime, marker, b64);
  }

  /** Text that does not match is only stripped. */
  lemma ExtractB64Otherwise(text: string)
    requires MatchDataUrl(Strip(text)).None?
    ensures ExtractB64(text) == Strip(text)
  {
  }

  // ----- one record -----

  /** `parts[2] if len(parts) >= 3 else "unknown"` for the '/'-separated parts of the key. */
  function DeriveUser(key: string): (u: string)
    ensures '/' !in u
  {
    SplitPartsFree(key, '/');
    var parts := Split(key, '/');
    if |parts| >= 3 then parts[2] else "unknown"
  }

  /** The user is the third path segment of the object key, when there is one. */
  lemma DeriveUserOfPath(parts: seq<string>)
    requires |parts| >= 1
    requires forall i :: 0 <= i < |parts| ==> '/' !in parts[i]
    ensures DeriveUser(Join(parts, '/')) == if |parts| >= 3 then parts[2] else "unknown"
  {
    JoinSplit(parts, '/');
  }

  /**
   * One S3 record as the handler sees it: where the object is, the text
   * stored in it, the model's answer, and the clock readings (`%Y-%m-%d` of
   * today and `int(time.time())`).
   */
  datatype Record = Record(bucket: string, key: string, body: string, reply: string, today: string, now: int)

  datatype Status = Unrecognized | ParsedRaw | Parsed(doc: Value)

  /** How the model's answer is classified: no receipt, unparseable text, or JSON. */
  function Classify(reply: string, parse: string -> Option<Value>): (st: Status)
    ensures st.Unrecognized? <==> reply == "" || IsNoneText(reply)
    ensures st.ParsedRaw? <==> reply != "" && !IsNoneText(reply) && parse(reply).None?
    ensures st.Parsed? ==> parse(reply) == Some(st.doc)
  {
    if reply == "" || IsNoneText(reply) then Unrecognized
    else match parse(reply)
      case None => ParsedRaw
      case Some(doc) => Parsed(doc)
  }

  /** `str(d.get(k) or fallback)`: a truthy value as text, else the fallback. */
  function TextOr(v: Option<Value>, fallback: string, show: Value -> string): (t: string)
    ensures v.None? || !Truthy(v.value) ==> t == fallback
    ensures v.Some? && v.value.Str? && v.value.s != "" ==> t == v.value.s
    ensures v.Some? && Truthy(v.value) && !v.value.Str? ==> t == show(v.value)
  {
    if v.Some? && Truthy(v.value) then (if v.value.Str? then v.value.s else show(v.value)) else fallback
  }

  /** `{k: v for k, v in item.items() if v is not None}` */
  function DropNone(fs: seq<Field>): (r: seq<Field>)
    ensures forall f :: f in r <==> f in fs && f.value != Null
  {
    if fs == [] then []
    else if fs[0].value == Null then DropNone(fs[1..])
    else [fs[0]] + DropNone(fs[1..])
  }

  /** The keys a parsed item may have. */
  const ItemKeys: set<string> :=
    {"userId", "date", "status", "vendor", "items", "subtotal", "taxes", "fees", "total", "s3Key", "parsedAt"}

  /** The "not a receipt" row. */
  function UnrecognizedItem(r: Record): Value
  {
    Object([Field("userId", Str(DeriveUser(r.key))), Field("date", Str(r.today)),
            Field("status", Str("unrecognized")), Field("s3Key", Str(r.key)), Field("parsedAt", Int(r.now))])
  }

  /** The row that keeps an answer which is not JSON. */
  function RawItem(r: Record): Value
  {
    Object([Field("userId", Str(DeriveUser(r.key))), Field("date", Str(r.today)),
            Field("status", Str("parsed_raw")), Field("s3Key", Str(r.key)),
            Field("claudeRaw", Str(r.reply)), Field("parsedAt", Int(r.now))])
  }

  /** The eleven fields of a parsed row, before None values are dropped. */
  function ParsedFields(doc: seq<Field>, r: Record, show: Value -> string): seq<Field>
  {
    Header(doc, r, show) + Amounts(doc) + [Field("s3Key", Str(r.key)), Field("parsedAt", Int(r.now))]
  }

  /** The first three fields of a parsed row: who, when, and the status. */
  function Header(doc: seq<Field>, r: Record, show: Value -> string): seq<Field>
  {
    [ Field("userId", Str(TextOr(Get(doc, "userId"), DeriveUser(r.key), show))),
      Field("date", Str(TextOr(Get(doc, "date"), r.today, show))),
      Field("status", Str("parsed")) ]
  }

  /** The fields copied from the model's JSON. */
  function Amounts(doc: seq<Field>): seq<Field>
  {
    [ Field("vendor", GetOr(doc, "vendor", Null)),
      Field("items", GetOr(doc, "items", List([]))),
      Field("subtotal", GetOr(doc, "subtotal", Null)),
      Field("taxes", GetOr(doc, "taxes", Null)),
      Field("fees", GetOr(doc, "fees", Null)),
      Field("total", GetOr(doc, "total", Null)) ]
  }

  /** The row for a JSON dict: its eleven fields without the None values, decimalized. */
  function ParsedItem(doc: seq<Field>, r: Record, show: Value -> string): Value
  {
    Object(DecimalizeFields(DropNone(ParsedFields(doc, r, show))))
  }

  /** The item one record writes, or the crash it causes. */
  function ItemFor(r: Record, parse: string -> Option<Value>, show: Value -> string): Result<Value, PyError>
  {
    match Classify(r.reply, parse)
    case Unrecognized => Ok(UnrecognizedItem(r))
    case ParsedRaw => Ok(RawItem(r))
    case Parsed(doc) =>
      if doc.Object? then Ok(ParsedItem(doc.fields, r, show))
      else Err(AttributeError)
  }

  /** Every field of a parsed row has one of the eleven keys. */
  lemma ParsedFieldsKeys(doc: seq<Field>, r: Record, show: Value -> string)
    ensures forall f :: f in ParsedFields(doc, r, show) ==> f.key in ItemKeys
  {
    var head, amounts, tail := Header(doc, r, show), Amounts(doc), [Field("s3Key", Str(r.key)), Field("parsedAt", Int(r.now))];
    forall f | f in head
      ensures f.key in ItemKeys
    {
      var i :| 0 <= i < |head| && head[i] == f;
    }
    forall f | f in amounts
      ensures f.key in ItemKeys
    {
      var i :| 0 <= i < |amounts| && amounts[i] == f;
    }
    forall f | f in tail
      ensures f.key in ItemKeys
    {
      var i :| 0 <= i < |tail| && tail[i] == f;
    }
    assert ParsedFields(doc, r, show) == head + amounts + tail;
  }

  /** `decimalize` keeps the keys of a dict and turns no value into None. */
  lemma DecimalizeFieldsKeepsKeys(fs: seq<Field>)
    requires forall g :: g in fs ==> g.key in ItemKeys && g.value != Null
    ensures forall f :: f in DecimalizeFields(fs) ==> f.key in ItemKeys && f.value != Null
  {
    var out := DecimalizeFields(fs);
    forall f | f in out
      ensures f.key in ItemKeys && f.value != Null
    {
      var i :| 0 <= i < |out| && out[i] == f;
      assert fs[i] in fs;
    }
  }

  /** A field that `decimalize` leaves alone stays in the dict. */
  lemma DecimalizeFieldsKeeps(fs: seq<Field>, f: Field)
    requires f in fs && Decimalize(f.value) == f.value
    ensures f in DecimalizeFields(fs)
  {
    var i :| 0 <= i < |fs| && fs[i] == f;
    assert DecimalizeFields(fs)[i] == f;
  }

  /** The parsed row holds only the eleven keys and no None value. */
  lemma ParsedItemKeys(doc: seq<Field>, r: Record, show: Value -> string)
    ensures forall f :: f in ParsedItem(doc, r, show).fields ==> f.key in ItemKeys && f.value != Null
  {
    var kept := DropNone(ParsedFields(doc, r, show));
    ParsedFieldsKeys(doc, r, show);
    DecimalizeFieldsKeepsKeys(kept);
  }

  /** The parsed row holds no float. */
  lemma ParsedItemFloatFree(doc: seq<Field>, r: Record, show: Value -> string)
    ensures FloatFree(ParsedItem(doc, r, show))
  {
    DecimalizeRemovesFloats(Object(DropNone(ParsedFields(doc, r, show))));
  }

  /** A field of the eleven that is not None and that `decimalize` leaves alone is in the parsed row. */
  lemma KeptInItem(doc: seq<Field>, r: Record, show: Value -> string, f: Field)
    requires f in ParsedFields(doc, r, show) && f.value != Null && Decimalize(f.value) == f.value
    ensures f in ParsedItem(doc, r, show).fields
  {
    DecimalizeFieldsKeeps(DropNone(ParsedFields(doc, r, show)), f);
  }

  /** The parsed row has status "parsed". */
  lemma ParsedItemStatus(doc: seq<Field>, r: Record, show: Value -> string)
    ensures Field("status", Str("parsed")) in ParsedItem(doc, r, show).fields
  {
    assert Header(doc, r, show)[2] == Field("status", Str("parsed"));
    KeptInItem(doc, r, show, Field("status", Str("parsed")));
  }

  /** The parsed row records the key of the S3 object. */
  lemma ParsedItemKey(doc: seq<Field>, r: Record, show: Value -> string)
    ensures Field("s3Key", Str(r.key)) in ParsedItem(doc, r, show).fields
  {
    KeptInItem(doc, r, show, Field("s3Key", Str(r.key)));
  }

  /** The user is the JSON's `userId` when it is truthy, else the one derived from the key. */
  lemma ParsedItemUser(doc: seq<Field>, r: Record, show: Value -> string)
    ensures Field("userId", Str(TextOr(Get(doc, "userId"), DeriveUser(r.key), show))) in ParsedItem(doc, r, show).fields
  {
    var f := Field("userId", Str(TextOr(Get(doc, "userId"), DeriveUser(r.key), show)));
    assert Header(doc, r, show)[0] == f;
    KeptInItem(doc, r, show, f);
  }

  /** The date is the JSON's `date` when it is truthy, else today's. */
  lemma ParsedItemDate(doc: seq<Field>, r: Record, show: Value -> string)
    ensures Field("date", Str(TextOr(Get(doc, "date"), r.today, show))) in ParsedItem(doc, r, show).fields
  {
    var f := Field("date", Str(TextOr(Get(doc, "date"), r.today, show)));
    assert Header(doc, r, show)[1] == f;
    KeptInItem(doc, r, show, f);
  }

  lemma AmountsNoItems(doc: seq<Field>)
    requires !Has(doc, "items")
    ensures Field("items", List([])) in Amounts(doc)
  {
    assert Amounts(doc)[1] == Field("items", List([]));
  }

  /** A JSON answer without `items` gets an empty item list. */
  lemma ParsedItemNoItems(doc: seq<Field>, r: Record, show: Value -> string)
    requires !Has(doc, "items")
    ensures Field("items", List([])) in ParsedItem(doc, r, show).fields
  {
    var f := Field("items", List([]));
    AmountsNoItems(doc);
    assert Decimalize(f.value) == f.value;
    KeptInItem(doc, r, show, f);
  }

  /**
   * An answer that is not empty nor "none": text that does not parse yields
   * the raw row, a JSON dict the parsed row, and any other JSON crashes the
   * handler.
   */
  lemma ItemForAnswer(r: Record, parse: string -> Option<Value>, show: Value -> string)
    requires r.reply != "" && !IsNoneText(r.reply)
    ensures parse(r.reply).None? ==> ItemFor(r, parse, show) == Ok(RawItem(r))
    ensures parse(r.reply).Some? && parse(r.reply).value.Object? ==>
      ItemFor(r, parse, show) == Ok(ParsedItem(parse(r.reply).value.fields, r, show))
    ensures parse(r.reply).Some? && !parse(r.reply).value.Object? ==> ItemFor(r, parse, show) == Err(AttributeError)
  {
  }

  /** The row written for an answer that is empty or "none" in any case and spacing. */
  lemma UnrecognizedSpec(r: Record, parse: string -> Option<Value>, show: Value -> string)
    requires r.reply == "" || IsNoneText(r.reply)
    ensures ItemFor(r, parse, show) == Ok(UnrecognizedItem(r))
    ensures Keys(UnrecognizedItem(r).fields) == ["userId", "date", "status", "s3Key", "parsedAt"]
  {
  }

  // ----- the handler -----

  /** What a run of the handler does: the texts sent to the model, the rows written, the outcome. */
  datatype Outcome = Outcome(requests: seq<string>, writes: seq<Value>, result: Result<Value, PyError>)

  const OkReply: Value := Object([Field("ok", Bool(true))])

  /** What the loop body does with one record: the text it sends, then the row it writes or the crash. */
  datatype Step = Step(request: string, item: Result<Value, PyError>)

  /** The handler's loop, from record `i` on, for a given loop body. */
  function RunWith(records: seq<Record>, i: nat, step: Record -> Step): Outcome
    requires i <= |records|
    decreases |records| - i
  {
    if i == |records| then Outcome([], [], Ok(OkReply))
    else
      var s := step(records[i]);
      match s.item
      case Err(e) => Outcome([s.request], [], Err(e))
      case Ok(item) =>
        var rest := RunWith(records, i + 1, step);
        Outcome([s.request] + rest.requests, [item] + rest.writes, rest.result)
  }

  /**
   * The loop sends one request per record and writes one row per record, in
   * order, and answers `{"ok": True}` once every record is written; a crash
   * stops it at that record, with the earlier rows written.
   */
  lemma {:induction false} RunWithSpec(records: seq<Record>, i: nat, step: Record -> Step)
    requires i <= |records|
    decreases |records| - i
    ensures var o := RunWith(records, i, step);
      && |o.writes| <= |o.requests| <= |records| - i
      && (forall k :: 0 <= k < |o.requests| ==> o.requests[k] == step(records[i + k]).request)
      && (forall k :: 0 <= k < |o.writes| ==> step(records[i + k]).item == Ok(o.writes[k]))
      && (o.result.Ok? <==> forall k :: i <= k < |records| ==> step(records[k]).item.Ok?)
      && (o.result.Ok? ==> o.result.value == OkReply && |o.writes| == |records| - i)
      && (o.result.Err? ==> |o.requests| == |o.writes| + 1 && step(records[i + |o.writes|]).item.Err?)
  {
    if i < |records| {
      RunWithSpec(records, i + 1, step);
    }
  }

  /** The `for record in event["Records"]` loop, for a given loop body. */
  method RunLoop(records: seq<Record>, step: Record -> Step)
    returns (requests: seq<string>, writes: seq<Value>, r: Result<Value, PyError>)
    ensures Outcome(requests, writes, r) == RunWith(records, 0, step)
  {
    requests, writes := [], [];
    var i := 0;
    while i < |records|
      invariant 0 <= i <= |records|
      invariant var rest := RunWith(records, i, step);
        RunWith(records, 0, step) == Outcome(requests + rest.requests, writes + rest.writes, rest.result)
    {
      var s := step(records[i]);
      requests := requests + [s.request];
      if s.item.Err? {
        return requests, writes, Err(s.item.error);
      }
      writes := writes + [s.item.value];
      i := i + 1;
    }
    r := Ok(OkReply);
  }

  /** The handler's loop body: the payload sent to the model, then the row for the record. */
  function StepFor(r: Record, parse: string -> Option<Value>, show: Value -> string): Step
  {
    Step(ExtractB64(r.body), ItemFor(r, parse, show))
  }

  /** The handler's run over the event's records. */
  function Run(records: seq<Record>, parse: string -> Option<Value>, show: Value -> string): Outcome
  {
    RunWith(records, 0, r => StepFor(r, parse, show))
  }

  /**
   * `handler`: each record of the event is read, its payload sent to the
   * model, the answer classified and the row written, in order.
   */
  method Handler(records: seq<Record>, parse: string -> Option<Value>, show: Value -> string)
    returns (requests: seq<string>, writes: seq<Value>, r: Result<Value, PyError>)
    ensures Outcome(requests, writes, r) == Run(records, parse, show)
  {
    requests, writes, r := RunLoop(records, rec => StepFor(rec, parse, show));
  }
}
