/**
 * Data chutes: chutes attached to an API endpoint. They pass the name of
 * the endpoint's platform to the munger and no document id or collection.
 */
module DataChutes {
  import opened Base
  import opened Mungers
  import Chutes

  /** An endpoint (a Pipe) and the name of the platform it belongs to. */
  datatype Endpoint = Endpoint(id: nat, platformName: string)

  datatype DataChute = DataChute(chute: Chutes.Chute, endpoint: Endpoint)

  /** `DataChuteManager.find_by_endpoint(endpoint)`: the enabled chutes of that endpoint, in table order. */
  function FindByEndpoint(dcs: seq<DataChute>, e: Endpoint): (r: seq<DataChute>)
    ensures forall dc :: dc in r <==> dc in dcs && dc.chute.enabled && dc.endpoint == e
    ensures |r| <= |dcs|
  {
    if dcs == [] then []
    else
      var last := dcs[|dcs| - 1];
      FindByEndpoint(dcs[..|dcs| - 1], e) + (if last.chute.enabled && last.endpoint == e then [last] else [])
  }

  /** What `DataChute.process(data)` saves. */
  function Output(dc: DataChute, data: Doc, sm: SieveMatch, env: Env): seq<Record>
  {
    Chutes.Output(dc.chute, data, None, None, Some(dc.endpoint.platformName), sm, env)
  }

  /** `DataChute.process(data)`: the base process, tagged with the endpoint's platform name. */
  method Process(dc: DataChute, store: RecordStore, data: Doc, sm: SieveMatch, env: Env) returns (r: Option<SavedId>)
    modifies store
    ensures store.records == old(store.records) + Output(dc, data, sm, env)
    ensures r.Some? <==> Chutes.Accepts(dc.chute, data, sm)
  {
    var platform := dc.endpoint.platformName;
    r := Chutes.Process(dc.chute, store, data, None, None, Some(platform), sm, env);
  }

  /** The records `bulk_process` saves for a batch of documents. */
  function BulkOutput(dc: DataChute, docs: seq<Doc>, sm: SieveMatch, env: Env): seq<Record>
  {
    if docs == [] then []
    else BulkOutput(dc, docs[..|docs| - 1], sm, env) + Output(dc, docs[|docs| - 1], sm, env)
  }

  /**
   * A batch saves one record per accepted document, in batch order, each
   * tagged with the endpoint's platform name and carrying no document id
   * or collection.
   */
  lemma {:induction false} BulkOutputPerDocument(dc: DataChute, docs: seq<Doc>, sm: SieveMatch, env: Env)
    ensures |BulkOutput(dc, docs, sm, env)| == |FilterAccepted(dc, docs, sm)|
    ensures forall i :: 0 <= i < |BulkOutput(dc, docs, sm, env)| ==>
      BulkOutput(dc, docs, sm, env)[i] == SavedRecord(dc.chute.munger, FilterAccepted(dc, docs, sm)[i], None, None,
                                                     Some(dc.endpoint.platformName), env)
  {
    if docs != [] {
      BulkOutputPerDocument(dc, docs[..|docs| - 1], sm, env);
    }
  }

  /** The documents of a batch that the chute accepts, in order. */
  function FilterAccepted(dc: DataChute, docs: seq<Doc>, sm: SieveMatch): seq<Doc>
  {
    if docs == [] then []
    else FilterAccepted(dc, docs[..|docs| - 1], sm)
         + (if Chutes.Accepts(dc.chute, docs[|docs| - 1], sm) then [docs[|docs| - 1]] else [])
  }

  /** `DataChute.bulk_process(data)`: processes each document in turn. */
  method BulkProcess(dc: DataChute, store: RecordStore, docs: seq<Doc>, sm: SieveMatch, env: Env)
    modifies store
    ensures store.records == old(store.records) + BulkOutput(dc, docs, sm, env)
  {
    var i := 0;
    while i < |docs|
      invariant 0 <= i <= |docs|
      invariant store.records == old(store.records) + BulkOutput(dc, docs[..i], sm, env)
    {
      var _ := Process(dc, store, docs[i], sm, env);
      assert docs[..i + 1][..i] == docs[..i];
      i := i + 1;
    }
    assert docs[..i] == docs;
  }
}
