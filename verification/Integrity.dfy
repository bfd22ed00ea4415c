/** JSON values and the hash-chained event log. The hash of a canonical JSON value is an arbitrary
    function of the value: nothing is assumed of it, so tamper evidence is stated as "equal, or here
    are two values with one hash". */
module Integrity {
  import opened Prelude

  /** `JTime` stands for the ISO text of an instant; that text determines the instant. */
  datatype Json =
    | JNull
    | JBool(flag: bool)
    | JInt(number: int)
    | JReal(quantity: real)
    | JStr(text: string)
    | JTime(instant: int)
    | JArr(items: seq<Json>)
    | JObj(fields: map<string, Json>)

  type Event = map<string, Json>
  type Hasher = Json -> string

  /** `"0" * 64` */
  function Genesis(): (r: string)
    ensures |r| == 64 && forall c | c in r :: c == '0'
  {
    seq(64, i => '0')
  }

  /** `event.get(key)` */
  function Get(e: Event, key: string): Json { if key in e then e[key] else JNull }

  function Payload(e: Event): Event { e - {"event_hash"} }

  /** The fields of a chained event that its hash is computed over. */
  function Chained(body: Event, previous: string, sequence: nat): Event {
    body + map["sequence" := JInt(sequence), "previous_hash" := JStr(previous)]
  }

  function ChainedEvent(h: Hasher, body: Event, previous: string, sequence: nat): Event {
    var chained := Chained(body, previous, sequence);
    chained + map["event_hash" := JStr(h(JObj(chained)))]
  }

  /** `str(event["event_hash"])`; in every chain that verifies the field is a string. */
  function HashText(e: Event): string {
    match Get(e, "event_hash")
    case JStr(s) => s
    case _ => ""
  }

  function HeadHash(events: seq<Event>): string {
    if events == [] then Genesis() else HashText(events[|events| - 1])
  }

  /** Python's `==` between a field and an integer: `True` equals 1 and `1.0` equals 1. */
  predicate EqualsInt(j: Json, n: int) {
    match j
    case JBool(b) => n == if b then 1 else 0
    case JInt(x) => x == n
    case JReal(x) => x == n as real
    case _ => false
  }

  /** `e` is the event number `sequence` after a log whose head hash is `previous`. */
  predicate Links(h: Hasher, e: Event, previous: string, sequence: nat) {
    && EqualsInt(Get(e, "sequence"), sequence)
    && Get(e, "previous_hash") == JStr(previous)
    && Get(e, "event_hash") == JStr(h(JObj(Payload(e))))
  }

  predicate ValidChain(h: Hasher, events: seq<Event>) {
    events == [] ||
    var n := |events|;
    ValidChain(h, events[..n - 1]) && Links(h, events[n - 1], HeadHash(events[..n - 1]), n)
  }

  lemma {:induction false} PrefixesValid(h: Hasher, events: seq<Event>, k: nat)
    requires ValidChain(h, events) && k <= |events|
    ensures ValidChain(h, events[..k])
  {
    if k < |events| {
      PrefixesValid(h, events[..|events| - 1], k);
      assert events[..|events| - 1][..k] == events[..k];
    } else {
      assert events[..k] == events;
    }
  }

  ghost predicate IsGenesis(j: Json) { j.JStr? && |j.text| == 64 && forall c | c in j.text :: c == '0' }

  lemma GenesisOnly(j: Json)
    ensures IsGenesis(j) <==> j == JStr(Genesis())
  {
    var zeros := Genesis();
    if IsGenesis(j) {
      forall i | 0 <= i < 64 ensures j.text[i] == zeros[i] { assert j.text[i] in j.text && zeros[i] in zeros; }
      assert j.text == zeros;
    }
  }

  /** Event `i` stands in its place: it is numbered i + 1, as Python compares numbers, it names the hash of
      the event before it, 64 zeros for the first, and its own hash is that of its other fields. */
  ghost predicate InPlace(h: Hasher, events: seq<Event>, i: nat)
    requires i < |events|
  {
    var e, n := events[i], i + 1;
    && (var s := Get(e, "sequence"); s == JInt(n) || s == JReal(n as real) || (n == 1 && s == JBool(true)))
    && (if i == 0 then IsGenesis(Get(e, "previous_hash"))
        else Get(e, "previous_hash") == Get(events[i - 1], "event_hash"))
    && Get(e, "event_hash") == JStr(h(JObj(e - {"event_hash"})))
  }

  /** A log verifies exactly when every event stands in its place. */
  lemma {:induction false} ValidChainExactly(h: Hasher, events: seq<Event>)
    ensures ValidChain(h, events) <==> forall i | 0 <= i < |events| :: InPlace(h, events, i)
  {
    if events != [] {
      var n := |events|;
      var front := events[..n - 1];
      ValidChainExactly(h, front);
      forall i | 0 <= i < n - 1 ensures InPlace(h, front, i) <==> InPlace(h, events, i) {
        PlaceInPrefix(h, events, n - 1, i);
      }
      if forall i | 0 <= i < n - 1 :: InPlace(h, front, i) { LastInPlace(h, events); }
    }
  }

  lemma PlaceInPrefix(h: Hasher, events: seq<Event>, k: nat, i: nat)
    requires i < k <= |events|
    ensures InPlace(h, events[..k], i) <==> InPlace(h, events, i)
  {}

  lemma LastInPlace(h: Hasher, events: seq<Event>)
    requires events != []
    requires var n := |events|; n > 1 ==> InPlace(h, events[..n - 1], n - 2)
    ensures var n := |events|;
            Links(h, events[n - 1], HeadHash(events[..n - 1]), n) <==> InPlace(h, events, n - 1)
  {
    GenesisOnly(Get(events[|events| - 1], "previous_hash"));
    hide IsGenesis;
  }

  /** What chaining adds to an event: number, previous hash, and the hash of all the rest. */
  lemma ChainedEventTells(h: Hasher, body: Event, previous: string, sequence: nat)
    requires "event_hash" !in body
    ensures var e := ChainedEvent(h, body, previous, sequence);
            && e.Keys == body.Keys + {"sequence", "previous_hash", "event_hash"}
            && (forall k | k in body && k != "sequence" && k != "previous_hash" :: e[k] == body[k])
            && e["sequence"] == JInt(sequence) && e["previous_hash"] == JStr(previous)
            && e["event_hash"] == JStr(h(JObj(e - {"event_hash"})))
  {
    var e := ChainedEvent(h, body, previous, sequence);
    assert e - {"event_hash"} == Chained(body, previous, sequence);
  }

  method VerifyEventChain(h: Hasher, events: seq<Event>) returns (ok: bool)
    ensures ok <==> ValidChain(h, events)
  {
    var previous := Genesis();
    var i := 0;
    while i < |events|
      invariant 0 <= i <= |events|
      invariant ValidChain(h, events[..i]) && previous == HeadHash(events[..i])
    {
      var e := events[i];
      assert events[..i + 1][..i] == events[..i];
      if !EqualsInt(Get(e, "sequence"), i + 1) || Get(e, "previous_hash") != JStr(previous)
         || Get(e, "event_hash") != JStr(h(JObj(Payload(e)))) {
        if ValidChain(h, events) { PrefixesValid(h, events, i + 1); }
        return false;
      }
      previous := HashText(e);
      i := i + 1;
    }
    assert events[..i] == events;
    ok := true;
  }

  lemma ChainedLinks(h: Hasher, body: Event, previous: string, sequence: nat)
    ensures Links(h, ChainedEvent(h, body, previous, sequence), previous, sequence) <==>
              || "event_hash" !in body
              || h(JObj(Chained(body, previous, sequence))) == h(JObj(Payload(Chained(body, previous, sequence))))
  {
    var e, chained := ChainedEvent(h, body, previous, sequence), Chained(body, previous, sequence);
    assert Payload(e) == Payload(chained);
    if "event_hash" !in body { assert Payload(chained) == chained; }
  }

  /** Appending a chained event keeps a valid chain valid exactly when the event brought no hash field
      of its own, or the hash cannot tell the event with that field from the event without it. */
  lemma AppendValid(h: Hasher, events: seq<Event>, body: Event)
    requires ValidChain(h, events)
    ensures var previous, n := HeadHash(events), |events| + 1;
            ValidChain(h, events + [ChainedEvent(h, body, previous, n)]) <==>
              || "event_hash" !in body
              || Collision(h, JObj(Chained(body, previous, n)), JObj(Payload(Chained(body, previous, n))))
  {
    hide ChainedEvent, Links, HeadHash;
    var previous, n := HeadHash(events), |events| + 1;
    var e := ChainedEvent(h, body, previous, n);
    ChainedLinks(h, body, previous, n);
    if "event_hash" in body { assert "event_hash" !in Payload(Chained(body, previous, n)); }
    assert (events + [e])[..|events|] == events;
  }

  /** Two payloads, one in each log, that differ and yet hash alike. */
  ghost predicate PayloadCollision(h: Hasher, es: seq<Event>, fs: seq<Event>) {
    exists i, j :: 0 <= i < |es| && 0 <= j < |fs| && Collision(h, JObj(Payload(es[i])), JObj(Payload(fs[j])))
  }

  lemma LinkDeterminedByPayload(h: Hasher, e: Event, f: Event, p: string, q: string, m: nat, n: nat)
    requires Links(h, e, p, m) && Links(h, f, q, n) && Payload(e) == Payload(f)
    ensures e == f && m == n && p == q
  {
    assert e == Payload(e)["event_hash" := JStr(h(JObj(Payload(e))))];
    assert f == Payload(f)["event_hash" := JStr(h(JObj(Payload(f))))];
  }

  lemma PrefixCollision(h: Hasher, es: seq<Event>, fs: seq<Event>, m: nat, n: nat)
    requires m <= |es| && n <= |fs| && PayloadCollision(h, es[..m], fs[..n])
    ensures PayloadCollision(h, es, fs)
  {
    var i, j :| 0 <= i < m && 0 <= j < n && Collision(h, JObj(Payload(es[..m][i])), JObj(Payload(fs[..n][j])));
    assert Collision(h, JObj(Payload(es[i])), JObj(Payload(fs[j])));
  }

  /** Equal head hashes: the last payloads collide, or the last events and the hashes before them agree. */
  lemma SameHead(h: Hasher, es: seq<Event>, fs: seq<Event>)
    requires ValidChain(h, es) && ValidChain(h, fs) && es != [] && fs != []
    requires HeadHash(es) == HeadHash(fs)
    ensures var m, n := |es| - 1, |fs| - 1;
            || PayloadCollision(h, es, fs)
            || (m == n && es[m] == fs[n] && HeadHash(es[..m]) == HeadHash(fs[..n]))
  {
    var m, n := |es| - 1, |fs| - 1;
    var e, f := es[m], fs[n];
    SameHashText(h, e, f, HeadHash(es[..m]), HeadHash(fs[..n]), m + 1, n + 1);
    hide Links, HashText, Payload, PayloadCollision;
    if Payload(e) != Payload(f) {
      CollisionAt(h, es, fs, m, n);
    } else {
      LinkDeterminedByPayload(h, e, f, HeadHash(es[..m]), HeadHash(fs[..n]), m + 1, n + 1);
    }
  }

  /** The head hash determines the whole history: two non-empty chains that verify and end in the
      same hash are the same log, event for event, or the hash collides on two of their payloads. */
  lemma {:induction false} HeadHashDeterminesLog(h: Hasher, es: seq<Event>, fs: seq<Event>)
    requires ValidChain(h, es) && ValidChain(h, fs) && es != [] && fs != []
    requires HeadHash(es) == HeadHash(fs)
    ensures es == fs || PayloadCollision(h, es, fs)
    decreases |es|
  {
    hide HeadHash, Links, PayloadCollision;
    var m := |es| - 1;
    SameHead(h, es, fs);
    if !PayloadCollision(h, es, fs) {
      assert es == es[..m] + [es[m]] && fs == fs[..m] + [fs[m]];
      if m > 0 {
        HeadHashDeterminesLog(h, es[..m], fs[..m]);
        if es[..m] != fs[..m] { PrefixCollision(h, es, fs, m, m); }
      }
    }
  }

  lemma CollisionAt(h: Hasher, es: seq<Event>, fs: seq<Event>, i: nat, j: nat)
    requires i < |es| && j < |fs| && Collision(h, JObj(Payload(es[i])), JObj(Payload(fs[j])))
    ensures PayloadCollision(h, es, fs)
  {}

  lemma SameHashText(h: Hasher, e: Event, f: Event, p: string, q: string, m: nat, n: nat)
    requires Links(h, e, p, m) && Links(h, f, q, n) && HashText(e) == HashText(f)
    ensures h(JObj(Payload(e))) == h(JObj(Payload(f)))
  {}
}
