/** `trackDelivery` of src/services/api.js: the API-key check in front of
    the tracking server, which is an oracle of the network. */
module Api {
  import opened Model
  import opened Browser

  const MissingKeyMessage := "API 키가 설정되지 않았습니다."

  /** `!apiKey` is false: a key is stored and it is not the empty string. */
  predicate HasKey(apiKey: Option<string>) {
    apiKey.Some? && apiKey.value != ""
  }

  /** What `trackDelivery(carrier, invoice)` resolves to or rejects with. */
  function TrackReply(net: Network, apiKey: Option<string>, now: int, carrier: string, invoice: string): (r: Reply)
    ensures !HasKey(apiKey) ==> r == FetchError(MissingKeyMessage)
    ensures HasKey(apiKey) ==> r == net.tracker(now, apiKey.value, carrier, invoice)
  {
    if !HasKey(apiKey) then FetchError(MissingKeyMessage)
    else net.tracker(now, apiKey.value, carrier, invoice)
  }

  /** The requests `trackDelivery` sends: none when the key check fails. */
  function QueryLog(apiKey: Option<string>, carrier: string, invoice: string): (q: seq<Request>)
    ensures HasKey(apiKey) ==> q == [TrackingQuery(apiKey.value, carrier, invoice)]
    ensures !HasKey(apiKey) ==> q == []
  {
    if HasKey(apiKey) then [TrackingQuery(apiKey.value, carrier, invoice)] else []
  }

  method TrackDelivery(ls: LocalStorage, net: Network, now: int, carrier: string, invoice: string)
    returns (reply: Reply)
    modifies net`requests
    ensures reply == TrackReply(net, ls.apiKey, now, carrier, invoice)
    ensures net.requests == old(net.requests) + QueryLog(ls.apiKey, carrier, invoice)
  {
    var key := ls.apiKey;
    if key.None? || key.value == "" {
      return FetchError(MissingKeyMessage);
    }
    net.requests := net.requests + [TrackingQuery(key.value, carrier, invoice)];
    reply := net.tracker(now, key.value, carrier, invoice);
  }
}
