/**
 * The sliding-window rate limiter in front of the inquiry endpoints. Each client
 * has a list of the times of its recently admitted requests; a request is
 * admitted when fewer than `requestsPerMinute` of them lie within the last
 * minute. Times are integers in microseconds, and the current time is a parameter.
 */
module RateLimit {
  import opened Wrappers
  import opened Queries

  const Minute := 60_000_000
  const InquiriesPrefix := "/api/v1/inquiries"
  const UnknownClient := "unknown"
  const TooManyRequests := "Too many requests. Please try again later."
  const DefaultRequestsPerMinute := 60
  /** The limit the application installs the middleware with. */
  const AppRequestsPerMinute := 10

  /** Forwarded to the next handler, or stopped with an HTTP error. */
  datatype Outcome = Forwarded | Rejected(status: int, detail: string)

  /** A time less than a minute before `now`: kept by the purge at `now`. */
  function Recent(now: int): int -> bool {
    t => now - t < Minute
  }

  /** A time in the one-minute window `(w - Minute, w]`. */
  function Within(w: int): int -> bool {
    t => w - Minute < t <= w
  }

  /** The most entries a client's list can hold. */
  function Cap(limit: int): nat {
    if limit > 0 then limit else 0
  }

  /** The key a request is accounted under: the client's host, or "unknown" without a client. */
  function ClientKey(client: Option<string>): string {
    if client.Some? then client.value else UnknownClient
  }

  /** A client's list; the dictionary yields an empty one for a client it has not seen. */
  function ListOf(requests: map<string, seq<int>>, key: string): seq<int> {
    if key in requests then requests[key] else []
  }

  predicate NonDecreasing(s: seq<int>) {
    forall i, j :: 0 <= i < j < |s| ==> s[i] <= s[j]
  }

  /** How many admissions before the `k`-th lie in the minute up to it. */
  function EarlierInWindow(s: seq<int>, k: nat): nat
    requires k < |s|
  {
    |Filter(s[..k], Within(s[k]))|
  }

  /** When each time was admitted, fewer than `limit` earlier admissions lay in the minute up to it. */
  predicate Spaced(s: seq<int>, limit: int) {
    forall k :: 0 <= k < |s| ==> EarlierInWindow(s, k) < limit
  }

  lemma SpacedPrefix(s: seq<int>, limit: int)
    requires s != [] && Spaced(s, limit)
    ensures Spaced(s[..|s| - 1], limit)
  {
    var p := s[..|s| - 1];
    forall k | 0 <= k < |p| ensures EarlierInWindow(p, k) < limit {
      assert p[..k] == s[..k];
      assert EarlierInWindow(s, k) < limit;
    }
  }


  /** A window that ends a minute or more after the last admission holds none of them. */
  lemma WindowAfterAll(s: seq<int>, w: int)
    requires NonDecreasing(s) && s != [] && s[|s| - 1] <= w - Minute
    ensures Filter(s[..|s| - 1], Within(w)) == []
  {
    var p := s[..|s| - 1];
    forall t | t in p ensures !Within(w)(t) {
      var i :| 0 <= i < |p| && p[i] == t;
      assert s[i] <= s[|s| - 1];
    }
    FilterNone(p, Within(w));
  }

  /** A window holding the last admission holds fewer than `limit` earlier ones. */
  lemma WindowAroundLast(s: seq<int>, limit: int, w: int)
    requires NonDecreasing(s) && Spaced(s, limit) && s != []
    requires w - Minute < s[|s| - 1] <= w
    ensures |Filter(s[..|s| - 1], Within(w))| < limit
  {
    var p, x := s[..|s| - 1], s[|s| - 1];
    forall t | t in p && Within(w)(t) ensures Within(x)(t) {
      var i :| 0 <= i < |p| && p[i] == t;
      assert s[i] <= s[|s| - 1];
    }
    FilterShrinks(p, Within(w), Within(x));
    assert EarlierInWindow(s, |s| - 1) < limit;
  }

  /** A window before the last admission counts only earlier ones. */
  lemma WindowBeforeLast(s: seq<int>, w: int)
    requires s != [] && s[|s| - 1] > w
    ensures Filter(s, Within(w)) == Filter(s[..|s| - 1], Within(w))
  {
    assert s == s[..|s| - 1] + [s[|s| - 1]];
    FilterSnoc(s[..|s| - 1], s[|s| - 1], Within(w));
  }

  /**
   * The sliding-window promise: in admissions with non-decreasing times, each
   * admitted while fewer than `limit` others lay in the minute before it, no
   * one-minute window holds more than `limit` admissions.
   */
  lemma {:induction false} WindowBound(s: seq<int>, limit: int, w: int)
    requires NonDecreasing(s) && Spaced(s, limit)
    ensures |Filter(s, Within(w))| <= Cap(limit)
  {
    if s != [] {
      var p, x := s[..|s| - 1], s[|s| - 1];
      if x > w {
        WindowBeforeLast(s, w);
        SpacedPrefix(s, limit);
        assert NonDecreasing(p);
        WindowBound(p, limit, w);
      } else {
        assert s == p + [x];
        FilterSnoc(p, x, Within(w));
        if x <= w - Minute {
          WindowAfterAll(s, w);
        } else {
          WindowAroundLast(s, limit, w);
        }
      }
    }
  }

  /** Admitting `now` after fewer than `limit` admissions in the minute up to it keeps the history spaced and ordered. */
  lemma AdmitKeepsSpaced(log: seq<int>, now: int, limit: int)
    requires Spaced(log, limit) && NonDecreasing(log)
    requires forall i :: 0 <= i < |log| ==> log[i] <= now
    requires |Filter(log, Within(now))| < limit
    ensures Spaced(log + [now], limit) && NonDecreasing(log + [now])
  {
    var s := log + [now];
    forall k | 0 <= k < |s| ensures EarlierInWindow(s, k) < limit {
      if k < |log| {
        assert s[..k] == log[..k];
        assert EarlierInWindow(log, k) < limit;
      } else {
        assert s[..k] == log;
      }
    }
  }

  /** One client's part of the history. */
  ghost predicate ClientHistory(list: seq<int>, log: seq<int>, seen: int, clock: int, limit: int) {
    seen <= clock &&
    (forall i :: 0 <= i < |log| ==> log[i] <= seen) &&
    NonDecreasing(log) &&
    Spaced(log, limit) &&
    list == Filter(log, Recent(seen))
  }

  /**
   * The history behind the lists: each client's admissions have non-decreasing
   * times no later than its last request, each was admitted under the limit, and
   * its list holds exactly those within a minute of its last request.
   */
  ghost predicate HistoryOf(requests: map<string, seq<int>>, admitted: map<string, seq<int>>, lastSeen: map<string, int>,
                            clock: Option<int>, limit: int) {
    requests.Keys == admitted.Keys == lastSeen.Keys &&
    forall c :: c in admitted ==> clock.Some? && ClientHistory(requests[c], admitted[c], lastSeen[c], clock.value, limit)
  }

  /** Purging at a later time keeps a client's history; so does admitting under the limit. */
  lemma ClientStep(list: seq<int>, log: seq<int>, seen: int, clock: int, limit: int, now: int)
    requires ClientHistory(list, log, seen, clock, limit) && clock <= now
    ensures ClientHistory(Filter(list, Recent(now)), log, now, now, limit)
    ensures |Filter(list, Recent(now))| < limit ==>
      ClientHistory(Filter(list, Recent(now)) + [now], log + [now], now, now, limit)
  {
    forall t | t in log && Recent(now)(t) ensures Recent(seen)(t) {
    }
    FilterNarrow(log, Recent(seen), Recent(now));
    var purged := Filter(list, Recent(now));
    if |purged| < limit {
      forall t | t in log ensures Recent(now)(t) == Within(now)(t) {
        var i :| 0 <= i < |log| && log[i] == t;
      }
      FilterAgree(log, Recent(now), Within(now));
      AdmitKeepsSpaced(log, now, limit);
      FilterSnoc(log, now, Recent(now));
    }
  }

  /** A later time keeps the history of a client the request does not come from. */
  lemma ClientLater(list: seq<int>, log: seq<int>, seen: int, clock: int, limit: int, now: int)
    requires ClientHistory(list, log, seen, clock, limit) && clock <= now
    ensures ClientHistory(list, log, seen, now, limit)
  {
  }

  /** The client a request comes from, after its purge and, when admitted, its new time. */
  lemma ClientAfter(requests: map<string, seq<int>>, admitted: map<string, seq<int>>, lastSeen: map<string, int>,
                    clock: Option<int>, limit: int, key: string, now: int)
    requires HistoryOf(requests, admitted, lastSeen, clock, limit)
    requires clock.None? || clock.value <= now
    ensures var purged := Filter(ListOf(requests, key), Recent(now));
      var log := if key in admitted then admitted[key] else [];
      ClientHistory(purged, log, now, now, limit) &&
      (|purged| < limit ==> ClientHistory(purged + [now], log + [now], now, now, limit))
  {
    if key in admitted {
      ClientStep(requests[key], admitted[key], lastSeen[key], clock.value, limit, now);
    } else {
      assert ListOf(requests, key) == [];
      assert ClientHistory([], [], now, now, limit);
      ClientStep([], [], now, now, limit, now);
    }
  }

  /** One dispatch on an inquiry path keeps the history, when time does not run backwards. */
  lemma HistoryStep(requests: map<string, seq<int>>, admitted: map<string, seq<int>>, lastSeen: map<string, int>,
                    clock: Option<int>, limit: int, key: string, now: int)
    ensures var purged := Filter(ListOf(requests, key), Recent(now));
      var log := if key in admitted then admitted[key] else [];
      var admit := |purged| < limit;
      HistoryOf(requests, admitted, lastSeen, clock, limit) && (clock.None? || clock.value <= now) ==>
      HistoryOf(requests[key := if admit then purged + [now] else purged],
                admitted[key := if admit then log + [now] else log],
                lastSeen[key := now], Some(now), limit)
  {
    if HistoryOf(requests, admitted, lastSeen, clock, limit) && (clock.None? || clock.value <= now) {
      var purged := Filter(ListOf(requests, key), Recent(now));
      var log := if key in admitted then admitted[key] else [];
      ClientAfter(requests, admitted, lastSeen, clock, limit, key, now);
      OthersLater(requests, admitted, lastSeen, clock, limit, key, now);
      if |purged| < limit {
        HistoryUpdate(requests, admitted, lastSeen, limit, key, now, purged + [now], log + [now]);
      } else {
        HistoryUpdate(requests, admitted, lastSeen, limit, key, now, purged, log);
      }
    }
  }

  /** The clients other than the requesting one keep their history at the later time. */
  lemma OthersLater(requests: map<string, seq<int>>, admitted: map<string, seq<int>>, lastSeen: map<string, int>,
                    clock: Option<int>, limit: int, key: string, now: int)
    requires HistoryOf(requests, admitted, lastSeen, clock, limit)
    requires clock.None? || clock.value <= now
    ensures forall c :: c in admitted && c != key ==> ClientHistory(requests[c], admitted[c], lastSeen[c], now, limit)
  {
    forall c | c in admitted && c != key ensures ClientHistory(requests[c], admitted[c], lastSeen[c], now, limit) {
      ClientLater(requests[c], admitted[c], lastSeen[c], clock.value, limit, now);
    }
  }

  /** Replacing one client's entries by a history at `now` keeps the history of all clients. */
  lemma HistoryUpdate(requests: map<string, seq<int>>, admitted: map<string, seq<int>>, lastSeen: map<string, int>,
                      limit: int, key: string, now: int, list: seq<int>, log: seq<int>)
    requires requests.Keys == admitted.Keys == lastSeen.Keys
    requires forall c :: c in admitted && c != key ==> ClientHistory(requests[c], admitted[c], lastSeen[c], now, limit)
    requires ClientHistory(list, log, now, now, limit)
    ensures HistoryOf(requests[key := list], admitted[key := log], lastSeen[key := now], Some(now), limit)
  {
    var requests', admitted', lastSeen' := requests[key := list], admitted[key := log], lastSeen[key := now];
    assert requests'.Keys == admitted'.Keys == lastSeen'.Keys;
    forall c | c in admitted' ensures ClientHistory(requests'[c], admitted'[c], lastSeen'[c], now, limit) {
      if c == key {
        assert requests'[c] == list && admitted'[c] == log && lastSeen'[c] == now;
      } else {
        assert requests'[c] == requests[c] && admitted'[c] == admitted[c] && lastSeen'[c] == lastSeen[c];
      }
    }
  }

  class RateLimitMiddleware {
    var requestsPerMinute: int
    var requests: map<string, seq<int>>
    /** Every time admitted per client, each client's last request time, and the latest time seen. */
    ghost var admitted: map<string, seq<int>>
    ghost var lastSeen: map<string, int>
    ghost var clock: Option<int>

    /** No client's list is longer than the limit. */
    ghost predicate Valid()
      reads this`requests, this`requestsPerMinute
    {
      forall c :: c in requests ==> |requests[c]| <= Cap(requestsPerMinute)
    }

    ghost predicate History()
      reads this
    {
      HistoryOf(requests, admitted, lastSeen, clock, requestsPerMinute)
    }

    constructor(requestsPerMinute: int)
      ensures this.requestsPerMinute == requestsPerMinute && requests == map[]
      ensures Valid() && History()
    {
      this.requestsPerMinute := requestsPerMinute;
      requests := map[];
      admitted := map[];
      lastSeen := map[];
      clock := None;
    }

    /**
     * `dispatch`. Requests outside the inquiry endpoints pass untouched. Otherwise
     * only this client's list is purged of times a minute or more old; the request is
     * rejected with 429 when the purged list holds the limit or more, and else its
     * time is appended and it is forwarded.
     */
    method Dispatch(path: string, client: Option<string>, now: int) returns (outcome: Outcome)
      requires Valid()
      modifies this
      ensures Valid()
      ensures requestsPerMinute == old(requestsPerMinute)
      ensures !(InquiriesPrefix <= path) ==> outcome == Forwarded && requests == old(requests)
      ensures InquiriesPrefix <= path ==>
        var key := ClientKey(client);
        var purged := Filter(ListOf(old(requests), key), Recent(now));
        outcome == (if |purged| >= requestsPerMinute then Rejected(429, TooManyRequests) else Forwarded) &&
        requests == old(requests)[key := if outcome.Forwarded? then purged + [now] else purged]
      ensures old(History()) && (old(clock).None? || old(clock).value <= now) ==> History()
    {
      outcome := Forwarded;
      if InquiriesPrefix <= path {
        var key := ClientKey(client);
        var purged := Filter(ListOf(requests, key), Recent(now));
        assert |purged| <= Cap(requestsPerMinute);
        var admit := |purged| < requestsPerMinute;
        var list := if admit then purged + [now] else purged;
        if !admit {
          outcome := Rejected(429, TooManyRequests);
        }
        HistoryStep(requests, admitted, lastSeen, clock, requestsPerMinute, key, now);
        ghost var log := if key in admitted then admitted[key] else [];
        requests := requests[key := list];
        admitted := admitted[key := if admit then log + [now] else log];
        lastSeen := lastSeen[key := now];
        clock := Some(now);
      }
    }
  }

  /** With the history kept, no client was ever admitted more than the limit within any one minute. */
  lemma AdmittedWithinLimit(m: RateLimitMiddleware, c: string, w: int)
    requires m.History()
    requires c in m.admitted
    ensures |Filter(m.admitted[c], Within(w))| <= Cap(m.requestsPerMinute)
  {
    WindowBound(m.admitted[c], m.requestsPerMinute, w);
  }
}
