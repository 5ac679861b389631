/**
 * The WebSocket metric counters (`websocket_metrics` in src/chat/websocket.py) and the
 * reset endpoint of src/api/metrics.py.
 */
module Metrics {

  const ActiveConnections: string := "active_connections"

  /** The counters the chat module creates, all starting at zero. */
  const MetricNames: seq<string> := [
    "total_connections", ActiveConnections, "auth_success", "auth_failures", "auth_timeouts",
    "messages_received", "messages_sent", "reauth_attempts", "reauth_success"
  ]

  const ResetMessage: string := "Metrics reset successfully"

  /**
   * The counters after a reset: every key is kept, "active_connections" keeps its value
   * and every other counter is zero.
   */
  function ResetValues(m: map<string, int>): (r: map<string, int>)
    ensures r.Keys == m.Keys
    ensures ActiveConnections in m ==> r[ActiveConnections] == m[ActiveConnections]
    ensures forall k :: k in r && k != ActiveConnections ==> r[k] == 0
  {
    map k | k in m :: if k == ActiveConnections then m[k] else 0
  }

  /** Resetting twice is the same as resetting once. */
  lemma ResetIdempotent(m: map<string, int>)
    ensures ResetValues(ResetValues(m)) == ResetValues(m)
  {
  }

  class WebsocketMetrics {
    var counters: map<string, int>

    constructor()
      ensures counters.Keys == set k | k in MetricNames
      ensures forall k :: k in counters ==> counters[k] == 0
    {
      counters := map k | k in MetricNames :: 0;
    }

    /** `reset_websocket_metrics`: zero every counter but the live-connection gauge, key by key. */
    method Reset() returns (message: string)
      modifies this
      ensures counters == ResetValues(old(counters))
      ensures message == ResetMessage
    {
      var pending := counters.Keys;
      ghost var done: set<string> := {};
      while pending != {}
        invariant pending + done == old(counters).Keys && pending !! done
        invariant counters.Keys == old(counters).Keys
        invariant forall k :: k in done ==> counters[k] == ResetValues(old(counters))[k]
        invariant forall k :: k in pending ==> counters[k] == old(counters)[k]
        decreases pending
      {
        var key :| key in pending;
        if key != ActiveConnections {
          counters := counters[key := 0];
        }
        pending := pending - {key};
        done := done + {key};
      }
      message := ResetMessage;
    }
  }
}
