/**
 * Mungers condense a raw document with their condenser and save the result
 * in their distillery. A data munger saves under the caller's document id
 * and collection; a mail munger always saves under the message's
 * `Message-ID` header, looked up without regard to case, and the configured
 * mail collection.
 */
module Mungers {
  import opened Base
  import opened Text

  /** The part of a Distillery that saving needs. */
  datatype Distillery = Distillery(id: nat, company: string)

  datatype Munger =
    | DataMunger(name: string, distillery: Distillery, condenser: string)
    | MailMunger(name: string, distillery: Distillery, condenser: string)

  /**
   * `Condenser.process(data)`, `MailCondenser.process(data, company)` (the
   * condenser is named by its first argument) and the `MAIL_COLLECTION`
   * setting.
   */
  datatype Env = Env(
    condense: (string, Doc) -> Doc,
    condenseMail: (string, Doc, string) -> Doc,
    mailCollection: string)

  /** A document saved by `Distillery.save_data(data, doc_id, collection, platform)`. */
  datatype Record = Record(
    distillery: nat,
    data: Doc,
    docId: Option<Json>,
    collection: Option<Json>,
    platform: Option<string>)

  /** The id `save_data` returns: the record's position in the store. Never falsy. */
  datatype SavedId = SavedId(position: nat)

  /** The header names of a message that spell `name` up to case. */
  function HeaderKeys(msg: Doc, name: string): set<string>
  {
    set k | k in msg && Lower(k) == Lower(name)
  }

  /**
   * `msg[name]` on an `email.message.Message`: header names are compared
   * without regard to case, and a missing header gives `None`. A message is
   * a document keyed by header name; among several spellings of one name
   * the least in code-point order is taken.
   */
  function Header(msg: Doc, name: string): (r: Option<Json>)
    ensures r.None? <==> forall k :: k in msg ==> Lower(k) != Lower(name)
    ensures r.Some? ==> exists k :: k in msg && Lower(k) == Lower(name) && r.value == msg[k]
    ensures name in msg && HeaderKeys(msg, name) == {name} ==> r == Some(msg[name])
  {
    var keys := HeaderKeys(msg, name);
    if keys == {} then
      assert forall k :: k in msg ==> k !in keys;
      None
    else
      var k := Least(keys);
      Some(msg[k])
  }

  /** The header looked up depends only on the lower-cased name. */
  lemma HeaderIgnoresCase(msg: Doc, a: string, b: string)
    requires Lower(a) == Lower(b)
    ensures Header(msg, a) == Header(msg, b)
  {
    assert HeaderKeys(msg, a) == HeaderKeys(msg, b);
  }

  /** `_process_data(data)`: the condensed document. */
  function Condensed(m: Munger, data: Doc, env: Env): Doc
  {
    match m
    case DataMunger(_, _, c) => env.condense(c, data)
    case MailMunger(_, d, c) => env.condenseMail(c, data, d.company)
  }

  /** The record `process` saves. */
  function SavedRecord(m: Munger, data: Doc, docId: Option<Json>, collection: Option<Json>,
                       platform: Option<string>, env: Env): Record
  {
    match m
    case DataMunger(_, d, _) => Record(d.id, Condensed(m, data, env), docId, collection, platform)
    case MailMunger(_, d, _) =>
      Record(d.id, Condensed(m, data, env), Header(data, "Message-ID"), Some(JStr(env.mailCollection)), platform)
  }

  /**
   * A mail munger ignores the document id and collection it is given: it
   * saves under the message's own id and the mail collection. A data munger
   * passes the caller's through.
   */
  lemma SavedRecordIds(m: Munger, data: Doc, docId: Option<Json>, collection: Option<Json>,
                       platform: Option<string>, env: Env)
    ensures var r := SavedRecord(m, data, docId, collection, platform, env);
      r.distillery == m.distillery.id && r.data == Condensed(m, data, env) && r.platform == platform
      && (m.DataMunger? ==> r.docId == docId && r.collection == collection)
      && (m.MailMunger? ==>
            (r.docId == Header(data, "Message-ID") && r.collection == Some(JStr(env.mailCollection))
             && forall d: Option<Json>, c: Option<Json> :: SavedRecord(m, data, d, c, platform, env) == r))
  {
  }

  /**
   * The first munger called `name`: `objects.get(name=...)` on a table whose names
   * are taken to be unique (with two of one name `get` raises `MultipleObjectsReturned`).
   */
  function FindByName(mungers: seq<Munger>, name: string): (r: Option<Munger>)
    ensures r.Some? ==> r.value in mungers && r.value.name == name
    ensures r.None? <==> forall i :: 0 <= i < |mungers| ==> mungers[i].name != name
  {
    if mungers == [] then None
    else if mungers[0].name == name then Some(mungers[0])
    else FindByName(mungers[1..], name)
  }

  /** The documents saved by all distilleries, in the order they were saved. */
  class RecordStore {
    var records: seq<Record>

    constructor ()
      ensures records == []
    {
      records := [];
    }

    /** `Distillery.save_data(data, doc_id, collection, platform)`. */
    method SaveData(d: Distillery, data: Doc, docId: Option<Json>, collection: Option<Json>,
                    platform: Option<string>) returns (id: SavedId)
      modifies this
      ensures records == old(records) + [Record(d.id, data, docId, collection, platform)]
      ensures id == SavedId(|old(records)|)
    {
      id := SavedId(|records|);
      records := records + [Record(d.id, data, docId, collection, platform)];
    }
  }

  /** `Munger.process` and `MailMunger.process`: condense, then save exactly one record. */
  method Process(m: Munger, store: RecordStore, data: Doc, docId: Option<Json>, collection: Option<Json>,
                 platform: Option<string>, env: Env) returns (id: SavedId)
    modifies store
    ensures store.records == old(store.records) + [SavedRecord(m, data, docId, collection, platform, env)]
    ensures id == SavedId(|old(store.records)|)
  {
    var doc := Condensed(m, data, env);
    match m {
      case DataMunger(_, d, _) =>
        id := store.SaveData(d, doc, docId, collection, platform);
      case MailMunger(_, d, _) =>
        var mailCollection := Some(JStr(env.mailCollection));
        var messageId := Header(data, "Message-ID");
        id := store.SaveData(d, doc, messageId, mailCollection, platform);
    }
  }
}
