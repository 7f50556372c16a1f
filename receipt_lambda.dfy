/**
 * The S3-triggered receipt Lambda (`lambda_function.py`): for every uploaded
 * object it works out the MIME type, has the model read the receipt, turns
 * the answer into an "extracted" document, writes it as JSON next to the
 * source under `receipts-json/`, and reports one result per record.
 * S3, the model and `json.loads` are inputs: each record carries the
 * object's stored content type and the model's answer, and the parser is a
 * parameter.
 */
module ReceiptLambda {
  import opened Wrappers
  import opened Json
  import opened Text

  // ----- _get_type -----

  /** `_get_type`: the stored content type when there is one, else a guess from the key's suffix. */
  function GetType(ctype: Option<string>, key: string): (t: string)
    ensures ctype.Some? && ctype.value != "" ==> t == ctype.value
  {
    if ctype.Some? && ctype.value != "" then ctype.value else MimeFor(Lower(key))
  }

  /** The guess from a lower-cased key's suffix. */
  function MimeFor(k: string): string
  {
    if EndsWith(k, ".png") then "image/png"
    else if EndsWith(k, ".jpg") || EndsWith(k, ".jpeg") then "image/jpeg"
    else if EndsWith(k, ".webp") then "image/webp"
    else if EndsWith(k, ".heic") || EndsWith(k, ".heif") then "image/heic"
    else if EndsWith(k, ".pdf") then "application/pdf"
    else "application/octet-stream"
  }

  /** A text ending with a suffix of four or more characters ends with that suffix's last four. */
  lemma EndsWithTail(k: string, suffix: string)
    requires |suffix| >= 4 && EndsWith(k, suffix)
    ensures |k| >= 4 && k[|k| - 4..] == suffix[|suffix| - 4..]
  {
    assert k[|k| - 4..] == k[|k| - |suffix|..][|suffix| - 4..];
  }

  /**
   * Each MIME type is chosen exactly for its own suffixes, whatever the
   * order of the tests; the fallback is chosen exactly when no known suffix
   * matches.
   */
  lemma MimeForSuffix(k: string)
    ensures var t := MimeFor(k);
      && (t == "image/png" <==> EndsWith(k, ".png"))
      && (t == "image/jpeg" <==> EndsWith(k, ".jpg") || EndsWith(k, ".jpeg"))
      && (t == "image/webp" <==> EndsWith(k, ".webp"))
      && (t == "image/heic" <==> EndsWith(k, ".heic") || EndsWith(k, ".heif"))
      && (t == "application/pdf" <==> EndsWith(k, ".pdf"))
      && (t == "application/octet-stream" <==>
            !(|| EndsWith(k, ".png") || EndsWith(k, ".jpg") || EndsWith(k, ".jpeg") || EndsWith(k, ".webp")
              || EndsWith(k, ".heic") || EndsWith(k, ".heif") || EndsWith(k, ".pdf")))
  {
    if EndsWith(k, ".jpg") { EndsWithTail(k, ".jpg"); }
    if EndsWith(k, ".jpeg") { EndsWithTail(k, ".jpeg"); }
    if EndsWith(k, ".webp") { EndsWithTail(k, ".webp"); }
    if EndsWith(k, ".heic") { EndsWithTail(k, ".heic"); }
    if EndsWith(k, ".heif") { EndsWithTail(k, ".heif"); }
    if EndsWith(k, ".pdf") { EndsWithTail(k, ".pdf"); }
  }

  /** Without a stored type, the guess is made on the key lower-cased, so the case of the suffix does not matter. */
  lemma GetTypeIgnoresCase(ctype: Option<string>, key1: string, key2: string)
    requires ctype.None? || ctype.value == ""
    requires Lower(key1) == Lower(key2)
    ensures GetType(ctype, key1) == GetType(ctype, key2) == MimeFor(Lower(key1))
  {
  }

  // ----- _out_key -----

  const ResultsPrefix: string := "receipts-json/"

  /** `_out_key`: where the JSON for a source object is written. */
  function OutKey(key: string): (out: string)
    ensures |out| == |ResultsPrefix| + |key| + 5
    ensures out[..|ResultsPrefix|] == ResultsPrefix && out[|out| - 5..] == ".json"
    ensures out[|ResultsPrefix|..|out| - 5] == key
  {
    ResultsPrefix + key + ".json"
  }

  /** The source key sits between the prefix and ".json", so distinct source keys never share an output key. */
  lemma OutKeyInjective(a: string, b: string)
    ensures OutKey(a) == OutKey(b) <==> a == b
  {
    if OutKey(a) == OutKey(b) {
      var n := |ResultsPrefix|;
      assert a == OutKey(a)[n..n + |a|];
      assert b == OutKey(b)[n..n + |b|];
    }
  }

  // ----- _extract -----

  /** `d.setdefault(key, v)`: `d` unchanged when it has `key`, else `key` added last with `v`. */
  function SetDefault(fields: seq<Field>, key: string, v: Value): seq<Field>
  {
    if Has(fields, key) then fields else Set(fields, key, v)
  }

  /** After `setdefault`, an existing value is kept, a missing one is `v`, and no other key changes. */
  lemma SetDefaultGet(fields: seq<Field>, key: string, v: Value, k: string)
    ensures Get(SetDefault(fields, key, v), k) ==
      if k == key && !Has(fields, key) then Some(v) else Get(fields, k)
    ensures Has(SetDefault(fields, key, v), key)
  {
    SetGet(fields, key, v, k);
    SetKeys(fields, key, v);
    SetGet(fields, key, v, key);
  }

  const NotReceipt: Value := Object([Field("recognized", Bool(false)), Field("reason", Str("not_a_receipt"))])

  /** `_extract`, given the model's answer: the document stored as "extracted". */
  function Extract(reply: string, parse: string -> Option<Value>): (doc: Value)
    ensures doc.Object?
  {
    if IsNoneText(reply) then NotReceipt
    else match parse(reply)
      case None => Object([Field("recognized", Bool(true)), Field("raw_text", Str(reply))])
      case Some(v) =>
        if v.Object? then Object(SetDefault(v.fields, "recognized", Bool(true)))
        else Object([Field("recognized", Bool(true)), Field("data", v)])
  }

  /**
   * Every extracted document says whether a receipt was recognized: "none"
   * in any case and spacing gives the not-a-receipt document; a JSON dict
   * keeps its own "recognized" and every other key, with True added when it
   * had none; any other JSON is wrapped under "data", and text that does not
   * parse is kept under "raw_text", both marked recognized.
   */
  lemma ExtractSpec(reply: string, parse: string -> Option<Value>)
    ensures var doc := Extract(reply, parse);
      && Has(doc.fields, "recognized")
      && (IsNoneText(reply) ==> doc == NotReceipt)
      && (!IsNoneText(reply) && parse(reply).None? ==>
            Get(doc.fields, "recognized") == Some(Bool(true)) && Get(doc.fields, "raw_text") == Some(Str(reply)))
      && (!IsNoneText(reply) && parse(reply).Some? && !parse(reply).value.Object? ==>
            Get(doc.fields, "recognized") == Some(Bool(true)) && Get(doc.fields, "data") == parse(reply))
  {
    var doc := Extract(reply, parse);
    if !IsNoneText(reply) && parse(reply).Some? && parse(reply).value.Object? {
      SetDefaultGet(parse(reply).value.fields, "recognized", Bool(true), "recognized");
    }
  }

  /** A JSON dict answer keeps every key it had, and gets `"recognized": True` only when it had no "recognized". */
  lemma ExtractDict(reply: string, parse: string -> Option<Value>, fields: seq<Field>, k: string)
    requires !IsNoneText(reply) && parse(reply) == Some(Object(fields))
    ensures Get(Extract(reply, parse).fields, k) ==
      if k == "recognized" && !Has(fields, "recognized") then Some(Bool(true)) else Get(fields, k)
  {
    SetDefaultGet(fields, "recognized", Bool(true), k);
  }

  // ----- lambda_handler -----

  /**
   * One S3 record as the Lambda sees it: the bucket, the decoded key, the
   * content type stored with the object, and the model's answer for it.
   */
  datatype Record = Record(bucket: string, key: string, contentType: Option<string>, reply: string)

  /** An S3 `put_object` of a JSON document. */
  datatype Put = Put(bucket: string, key: string, doc: Value)

  /** The JSON document written for a record. */
  function PutFor(r: Record, parse: string -> Option<Value>): Put
  {
    Put(r.bucket, OutKey(r.key), Object([
      Field("source_bucket", Str(r.bucket)),
      Field("source_key", Str(r.key)),
      Field("mime", Str(GetType(r.contentType, r.key))),
      Field("extracted", Extract(r.reply, parse))]))
  }

  /** The entry reported for a record. */
  function ResultFor(r: Record): Value
  {
    Object([
      Field("bucket", Str(r.bucket)),
      Field("key", Str(r.key)),
      Field("output_bucket", Str(r.bucket)),
      Field("output_key", Str(OutKey(r.key))),
      Field("status", Str("ok"))])
  }

  /** The documents written for `records`, in order. */
  function Puts(records: seq<Record>, parse: string -> Option<Value>): seq<Put>
  {
    if records == [] then [] else Puts(records[..|records| - 1], parse) + [PutFor(records[|records| - 1], parse)]
  }

  /** The results reported for `records`, in order. */
  function Results(records: seq<Record>): seq<Value>
  {
    if records == [] then [] else Results(records[..|records| - 1]) + [ResultFor(records[|records| - 1])]
  }

  /** The k-th document written is the one for the k-th record. */
  lemma {:induction false} PutsAt(records: seq<Record>, parse: string -> Option<Value>)
    ensures |Puts(records, parse)| == |records|
    ensures forall k :: 0 <= k < |records| ==> Puts(records, parse)[k] == PutFor(records[k], parse)
  {
    if records != [] {
      var init := records[..|records| - 1];
      PutsAt(init, parse);
      var ps := Puts(records, parse);
      forall k | 0 <= k < |records|
        ensures ps[k] == PutFor(records[k], parse)
      {
        if k < |init| {
          assert ps[k] == Puts(init, parse)[k];
          assert records[k] == init[k];
        }
      }
    }
  }

  /** The k-th result reported is the one for the k-th record. */
  lemma {:induction false} ResultsAt(records: seq<Record>)
    ensures |Results(records)| == |records|
    ensures forall k :: 0 <= k < |records| ==> Results(records)[k] == ResultFor(records[k])
  {
    if records != [] {
      var init := records[..|records| - 1];
      ResultsAt(init);
      var rs := Results(records);
      forall k | 0 <= k < |records|
        ensures rs[k] == ResultFor(records[k])
      {
        if k < |init| {
          assert rs[k] == Results(init)[k];
          assert records[k] == init[k];
        }
      }
    }
  }

  /**
   * One result per record, in record order, each "ok", written back to the
   * source bucket under the record's output key; two records with different
   * keys never write to the same output key.
   */
  lemma ResultsSpec(records: seq<Record>, parse: string -> Option<Value>)
    ensures |Results(records)| == |records| == |Puts(records, parse)|
    ensures forall k :: 0 <= k < |records| ==>
      var res := ResultFor(records[k]).fields;
      && Results(records)[k] == Object(res)
      && Field("status", Str("ok")) in res
      && Field("output_bucket", Str(records[k].bucket)) in res
      && Field("output_key", Str(OutKey(records[k].key))) in res
      && Puts(records, parse)[k].bucket == records[k].bucket
      && Puts(records, parse)[k].key == OutKey(records[k].key)
    ensures forall j, k :: 0 <= j < |records| && 0 <= k < |records| && records[j].key != records[k].key ==>
      Puts(records, parse)[j].key != Puts(records, parse)[k].key
  {
    PutsAt(records, parse);
    ResultsAt(records);
    forall j, k | 0 <= j < |records| && 0 <= k < |records| && records[j].key != records[k].key
      ensures Puts(records, parse)[j].key != Puts(records, parse)[k].key
    {
      OutKeyInjective(records[j].key, records[k].key);
    }
  }

  /** `lambda_handler`: one JSON write and one result per record, then `{"results": results}`. */
  method LambdaHandler(records: seq<Record>, parse: string -> Option<Value>)
    returns (puts: seq<Put>, response: Value)
    ensures puts == Puts(records, parse)
    ensures response == Object([Field("results", List(Results(records)))])
  {
    var results: seq<Value> := [];
    puts := [];
    for i := 0 to |records|
      invariant puts == Puts(records[..i], parse)
      invariant results == Results(records[..i])
    {
      assert records[..i + 1][..i] == records[..i];
      puts := puts + [PutFor(records[i], parse)];
      results := results + [ResultFor(records[i])];
    }
    assert records[..|records|] == records;
    response := Object([Field("results", List(results))]);
  }
}
