/**
 * A chute connects an optional sieve to a munger. An enabled chute whose
 * sieve accepts a document (a chute without a sieve accepts everything)
 * hands the document to its munger, which saves one record; otherwise
 * nothing is saved and the chute returns `None`.
 */
module Chutes {
  import opened Base
  import opened Mungers

  datatype Chute = Chute(sieve: Option<Sieve>, munger: Munger, enabled: bool)

  /**
   * `Chute.__str__`: `"sieve -> munger"`, or `"-> munger"` without a sieve.
   * The string always ends in `-> ` and the munger's name; a sieve's name
   * comes first, followed by a space.
   */
  function Str(c: Chute): (s: string)
    ensures var tail := "-> " + c.munger.name;
      |tail| <= |s| && s[|s| - |tail|..] == tail
    ensures c.sieve.None? <==> |s| == 3 + |c.munger.name|
    ensures c.sieve.Some? ==>
      |s| == |c.sieve.value.name| + 4 + |c.munger.name|
      && s[..|c.sieve.value.name|] == c.sieve.value.name && s[|c.sieve.value.name|] == ' '
  {
    if c.sieve.Some? then c.sieve.value.name + " -> " + c.munger.name else "-> " + c.munger.name
  }

  /** Chutes with the same munger name have the same string only when they have no sieve or sieves of the same name. */
  lemma StrDeterminesSieve(c: Chute, d: Chute)
    requires c.munger.name == d.munger.name && Str(c) == Str(d)
    ensures c.sieve.None? <==> d.sieve.None?
    ensures c.sieve.Some? ==> c.sieve.value.name == d.sieve.value.name
  {
    if c.sieve.Some? {
      assert |c.sieve.value.name| == |d.sieve.value.name|;
      assert c.sieve.value.name == Str(c)[..|c.sieve.value.name|];
    }
  }

  /** `Chute._is_match(data)`. */
  predicate IsMatch(c: Chute, data: Doc, sm: SieveMatch)
  {
    c.sieve.None? || sm(c.sieve.value, data)
  }

  /** The chute munges the document. */
  predicate Accepts(c: Chute, data: Doc, sm: SieveMatch)
  {
    c.enabled && IsMatch(c, data, sm)
  }

  /** What `Chute.process` saves: one record when it accepts, none otherwise. */
  function Output(c: Chute, data: Doc, docId: Option<Json>, collection: Option<Json>,
                  platform: Option<string>, sm: SieveMatch, env: Env): (out: seq<Record>)
    ensures |out| <= 1
    ensures out != [] <==> Accepts(c, data, sm)
  {
    if Accepts(c, data, sm) then [SavedRecord(c.munger, data, docId, collection, platform, env)] else []
  }

  /** `Chute.process(data, doc_id, collection, platform)`. */
  method Process(c: Chute, store: RecordStore, data: Doc, docId: Option<Json>, collection: Option<Json>,
                 platform: Option<string>, sm: SieveMatch, env: Env) returns (r: Option<SavedId>)
    modifies store
    ensures store.records == old(store.records) + Output(c, data, docId, collection, platform, sm, env)
    ensures r.Some? <==> Accepts(c, data, sm)
    ensures r.Some? ==> r.value == SavedId(|old(store.records)|)
  {
    r := None;
    var matched := c.sieve.None? || sm(c.sieve.value, data);
    if c.enabled && matched {
      var id := Mungers.Process(c.munger, store, data, docId, collection, platform, env);
      r := Some(id);
    }
  }

  /** The queue `thread_process` reports successes to. */
  class ResultQueue {
    var items: seq<bool>

    constructor ()
      ensures items == []
    {
      items := [];
    }
  }

  /** `Chute.thread_process(queue, ...)`: puts `True` on the queue exactly when a record was saved. */
  method ThreadProcess(c: Chute, queue: ResultQueue, store: RecordStore, data: Doc, docId: Option<Json>,
                       collection: Option<Json>, platform: Option<string>, sm: SieveMatch, env: Env)
    modifies store, queue
    ensures store.records == old(store.records) + Output(c, data, docId, collection, platform, sm, env)
    ensures queue.items == old(queue.items) + (if Accepts(c, data, sm) then [true] else [])
  {
    var result := Process(c, store, data, docId, collection, platform, sm, env);
    if result.Some? {
      queue.items := queue.items + [true];
    }
  }

  /** `ChuteManager.find_enabled()`. */
  function FindEnabled(chutes: seq<Chute>): (r: seq<Chute>)
    ensures forall c :: c in r <==> c in chutes && c.enabled
  {
    if chutes == [] then []
    else FindEnabled(chutes[..|chutes| - 1]) + (if chutes[|chutes| - 1].enabled then [chutes[|chutes| - 1]] else [])
  }

  /** The records saved by running every chute of `chutes` in order. */
  function Outputs(chutes: seq<Chute>, data: Doc, docId: Option<Json>, collection: Option<Json>,
                   platform: Option<string>, sm: SieveMatch, env: Env): seq<Record>
  {
    if chutes == [] then []
    else Outputs(chutes[..|chutes| - 1], data, docId, collection, platform, sm, env)
         + Output(chutes[|chutes| - 1], data, docId, collection, platform, sm, env)
  }

  /** Number of chutes of `chutes` that accept the document. */
  function CountAccepting(chutes: seq<Chute>, data: Doc, sm: SieveMatch): nat
  {
    if chutes == [] then 0
    else CountAccepting(chutes[..|chutes| - 1], data, sm) + (if Accepts(chutes[|chutes| - 1], data, sm) then 1 else 0)
  }

  /**
   * Running the chutes does not stop at the first match: every accepting
   * chute saves exactly one record, each made by that chute's munger, and
   * nothing is saved when none accepts.
   */
  lemma {:induction false} OutputsOnePerAcceptingChute(
    chutes: seq<Chute>, data: Doc, docId: Option<Json>, collection: Option<Json>,
    platform: Option<string>, sm: SieveMatch, env: Env)
    ensures |Outputs(chutes, data, docId, collection, platform, sm, env)| == CountAccepting(chutes, data, sm)
    ensures (Outputs(chutes, data, docId, collection, platform, sm, env) == []) <==>
              (forall i :: 0 <= i < |chutes| ==> !Accepts(chutes[i], data, sm))
    ensures forall r :: r in Outputs(chutes, data, docId, collection, platform, sm, env) ==>
              exists c :: c in chutes && Accepts(c, data, sm) && r == SavedRecord(c.munger, data, docId, collection, platform, env)
  {
    if chutes != [] {
      var front := chutes[..|chutes| - 1];
      OutputsOnePerAcceptingChute(front, data, docId, collection, platform, sm, env);
      assert forall i :: 0 <= i < |front| ==> front[i] == chutes[i];
      assert forall c :: c in front ==> c in chutes;
    }
  }

  /** The loop the dispatchers share: every chute processes the document; `saved` when any saved. */
  method ProcessAll(chutes: seq<Chute>, store: RecordStore, data: Doc, docId: Option<Json>,
                    collection: Option<Json>, platform: Option<string>, sm: SieveMatch, env: Env)
    returns (saved: bool)
    modifies store
    ensures store.records == old(store.records) + Outputs(chutes, data, docId, collection, platform, sm, env)
    ensures saved <==> Outputs(chutes, data, docId, collection, platform, sm, env) != []
  {
    saved := false;
    var i := 0;
    while i < |chutes|
      invariant 0 <= i <= |chutes|
      invariant store.records == old(store.records) + Outputs(chutes[..i], data, docId, collection, platform, sm, env)
      invariant saved <==> |store.records| > |old(store.records)|
    {
      var result := ProcessNext(chutes, i, store, data, docId, collection, platform, sm, env, old(store.records));
      if result {
        saved := true;
      }
      i := i + 1;
    }
    assert chutes[..i] == chutes;
  }

  /** One iteration of the dispatch loop: chute `i` processes the document, after the chutes before it. */
  method ProcessNext(chutes: seq<Chute>, i: nat, store: RecordStore, data: Doc, docId: Option<Json>,
                     collection: Option<Json>, platform: Option<string>, sm: SieveMatch, env: Env,
                     ghost start: seq<Record>)
    returns (saved: bool)
    requires i < |chutes|
    requires store.records == start + Outputs(chutes[..i], data, docId, collection, platform, sm, env)
    modifies store
    ensures store.records == start + Outputs(chutes[..i + 1], data, docId, collection, platform, sm, env)
    ensures saved <==> |store.records| > |old(store.records)|
    ensures !saved ==> store.records == old(store.records)
  {
    OutputsStep(chutes, i, data, docId, collection, platform, sm, env);
    var result := Process(chutes[i], store, data, docId, collection, platform, sm, env);
    saved := result.Some?;
  }

  /** One more chute adds its own output at the end. */
  lemma OutputsStep(chutes: seq<Chute>, i: nat, data: Doc, docId: Option<Json>, collection: Option<Json>,
                    platform: Option<string>, sm: SieveMatch, env: Env)
    requires i < |chutes|
    ensures Outputs(chutes[..i + 1], data, docId, collection, platform, sm, env)
            == Outputs(chutes[..i], data, docId, collection, platform, sm, env)
               + Output(chutes[i], data, docId, collection, platform, sm, env)
  {
    assert chutes[..i + 1][..i] == chutes[..i];
  }
}
