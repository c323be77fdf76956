/** The API-key handlers of server/routes/userRoutes.js: key masking, the required-field
    and exchange checks, and their effect on one user's stored keys.  The database is a
    map from lower-case exchange name to the stored key pair; a database failure is an
    input flag. */
module UserRoutes {
  import opened Common

  const Mask := "****"

  /** The exchanges keys may be stored for. */
  const SupportedExchanges: set<string> := {"binance", "delta"}

  /** A JavaScript string value that may be missing; it is truthy when present and non-empty. */
  predicate Truthy(s: Option<string>)
  {
    s.Some? && s.value != ""
  }

  // ------------------------------------------------------------- maskApiKey

  /** `maskApiKey`: a missing, empty or short key becomes `****`; any other keeps its
      first and last four characters around `****`. */
  function MaskApiKey(key: Option<string>): (r: string)
    ensures !Truthy(key) || |key.value| < 8 ==> r == Mask
    ensures Truthy(key) && |key.value| >= 8 ==>
              |r| == 12 && r[..4] == key.value[..4] && r[4..8] == Mask && r[8..] == key.value[|key.value| - 4..]
  {
    if !Truthy(key) || |key.value| < 8 then Mask
    else key.value[..4] + Mask + key.value[|key.value| - 4..]
  }

  /** The mask depends only on the first and last four characters: keys of length at
      least 8 that agree there are indistinguishable once masked. */
  lemma MaskHidesMiddle(a: string, b: string)
    requires |a| >= 8 && |b| >= 8
    requires a[..4] == b[..4] && a[|a| - 4..] == b[|b| - 4..]
    ensures MaskApiKey(Some(a)) == MaskApiKey(Some(b))
  {
  }

  /** A key of exactly eight characters is shown in full: its first four and last four
      characters are the whole key, so it can be read back from the mask. */
  lemma MaskRevealsEightCharacterKey(key: string)
    requires |key| == 8
    ensures var m := MaskApiKey(Some(key));
            m[..4] + m[8..] == key
  {
    var m := MaskApiKey(Some(key));
    assert key == key[..4] + key[4..];
  }

  // ------------------------------------------------------------- responses

  datatype StoredKeys = StoredKeys(apiKey: Option<string>, secretKey: Option<string>)

  /** One element of the listing: both keys masked and a fixed status. */
  datatype MaskedKeys = MaskedKeys(exchange: string, apiKey: string, secretKey: string, status: string)

  datatype Body = Message(text: string) | Error(text: string) | Listing(keys: seq<MaskedKeys>)

  datatype Response = Response(status: int, body: Body)

  /** One user's stored rows, keyed by lower-case exchange. */
  type Store = map<string, StoredKeys>

  /** The exchange check: the lower-case name must be a supported exchange. */
  predicate SupportedExchange(exchange: string)
  {
    ToLower(exchange) in SupportedExchanges
  }

  /** `GET /api-keys`: one entry per stored row, in the order the database returns them,
      with both keys masked and status `configured`.  A database failure answers 500. */
  function ListApiKeys(rows: seq<(string, StoredKeys)>, dbOk: bool): (r: Response)
    ensures !dbOk ==> r == Response(500, Error("Failed to fetch API keys"))
    ensures dbOk ==> r.status == 200 && r.body.Listing? && |r.body.keys| == |rows|
    ensures dbOk ==> forall i :: 0 <= i < |rows| ==>
              r.body.keys[i] == MaskedKeys(rows[i].0, MaskApiKey(rows[i].1.apiKey), MaskApiKey(rows[i].1.secretKey), "configured")
  {
    if !dbOk then Response(500, Error("Failed to fetch API keys"))
    else Response(200, Listing(MaskRows(rows)))
  }

  function MaskRows(rows: seq<(string, StoredKeys)>): (r: seq<MaskedKeys>)
    ensures |r| == |rows|
    ensures forall i :: 0 <= i < |rows| ==>
              r[i] == MaskedKeys(rows[i].0, MaskApiKey(rows[i].1.apiKey), MaskApiKey(rows[i].1.secretKey), "configured")
  {
    if rows == [] then []
    else [MaskedKeys(rows[0].0, MaskApiKey(rows[0].1.apiKey), MaskApiKey(rows[0].1.secretKey), "configured")]
         + MaskRows(rows[1..])
  }

  /** `POST /api-keys` with body fields `exchange`, `apiKey` and `secretKey`: returns the
      response and the store afterwards. */
  function SaveApiKeys(exchange: Option<string>, apiKey: Option<string>, secretKey: Option<string>,
                       store: Store, dbOk: bool): (r: (Response, Store))
    ensures !(Truthy(exchange) && Truthy(apiKey) && Truthy(secretKey)) ==>
              r == (Response(400, Error("Exchange, API key, and secret key are required")), store)
    ensures Truthy(exchange) && Truthy(apiKey) && Truthy(secretKey) && !SupportedExchange(exchange.value) ==>
              r == (Response(400, Error("Invalid exchange. Supported: binance, delta")), store)
    ensures r.0.status == 200 <==>
              Truthy(exchange) && Truthy(apiKey) && Truthy(secretKey) && SupportedExchange(exchange.value) && dbOk
    ensures r.0.status == 200 ==>
              r.1 == store[ToLower(exchange.value) := StoredKeys(apiKey, secretKey)]
              && ToLower(exchange.value) in SupportedExchanges
    ensures r.0.status != 200 ==> r.1 == store
  {
    if !Truthy(exchange) || !Truthy(apiKey) || !Truthy(secretKey) then
      (Response(400, Error("Exchange, API key, and secret key are required")), store)
    else if !SupportedExchange(exchange.value) then
      (Response(400, Error("Invalid exchange. Supported: binance, delta")), store)
    else if !dbOk then
      (Response(500, Error("Failed to save API keys")), store)
    else
      (Response(200, Message(exchange.value + " API keys saved successfully")),
       store[ToLower(exchange.value) := StoredKeys(apiKey, secretKey)])
  }

  /** `DELETE /api-keys/:exchange`: the row is removed when it exists; a missing row is
      a 404 and an unsupported exchange a 400. */
  function DeleteApiKeys(exchange: string, store: Store, dbOk: bool): (r: (Response, Store))
    ensures !SupportedExchange(exchange) ==> r == (Response(400, Error("Invalid exchange")), store)
    ensures r.0.status == 200 <==> SupportedExchange(exchange) && dbOk && ToLower(exchange) in store
    ensures r.0.status == 404 <==> SupportedExchange(exchange) && dbOk && ToLower(exchange) !in store
    ensures r.1 == if r.0.status == 200 then store - {ToLower(exchange)} else store
  {
    if !SupportedExchange(exchange) then (Response(400, Error("Invalid exchange")), store)
    else if !dbOk then (Response(500, Error("Failed to delete API keys")), store)
    else
      var key := ToLower(exchange);
      var changes := if key in store then 1 else 0;
      if changes > 0 then (Response(200, Message(exchange + " API keys deleted successfully")), store - {key})
      else (Response(404, Error("API keys not found")), store)
  }

  /** Saving under any spelling of the exchange name and then deleting under any other
      spelling of it leaves the other exchanges' rows as they were and removes this one. */
  lemma SaveThenDelete(ex1: string, ex2: string, apiKey: string, secretKey: string, store: Store)
    requires ToLower(ex1) == ToLower(ex2) && SupportedExchange(ex1)
    requires apiKey != "" && secretKey != "" && ex1 != ""
    ensures var saved := SaveApiKeys(Some(ex1), Some(apiKey), Some(secretKey), store, true);
            var deleted := DeleteApiKeys(ex2, saved.1, true);
            saved.0.status == 200 && deleted.0.status == 200
            && deleted.1 == store - {ToLower(ex1)}
  {
  }

  /** Every stored exchange name is a supported, lower-case name. */
  lemma SavedKeysAreNormalised(exchange: Option<string>, apiKey: Option<string>, secretKey: Option<string>,
                               store: Store, dbOk: bool)
    requires forall e | e in store :: e in SupportedExchanges
    ensures var r := SaveApiKeys(exchange, apiKey, secretKey, store, dbOk);
            forall e | e in r.1 :: e in SupportedExchanges && ToLower(e) == e
  {
    var r := SaveApiKeys(exchange, apiKey, secretKey, store, dbOk);
    forall e | e in r.1
      ensures e in SupportedExchanges && ToLower(e) == e
    {
      assert e == "binance" || e == "delta";
    }
  }
}
