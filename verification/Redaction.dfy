/** Redaction of sensitive keys in evidence. */
module Redaction {
  import opened Prelude
  import opened Integrity

  // ------------------------------------------------------------ redaction

  const SENSITIVE_WORDS: seq<string> := ["secret", "token", "password", "authorization", "credential"]

  /** Case folding as the case-insensitive pattern applies it, with the four non-ASCII letters that
      fold to a letter of some sensitive word. */
  function Fold(c: char): char {
    if 'A' <= c <= 'Z' then c - 'A' + 'a'
    else if c == '\U{017F}' then 's'
    else if c == '\U{0130}' || c == '\U{0131}' then 'i'
    else if c == '\U{212A}' then 'k'
    else c
  }

  function FoldText(s: string): string { seq(|s|, i requires 0 <= i < |s| => Fold(s[i])) }

  predicate OccursAt(hay: string, needle: string, i: int) {
    0 <= i <= |hay| - |needle| && hay[i..i + |needle|] == needle
  }

  predicate Contains(hay: string, needle: string) {
    exists i | 0 <= i <= |hay| :: OccursAt(hay, needle, i)
  }

  predicate Sensitive(key: string) {
    exists w :: w in SENSITIVE_WORDS && Contains(FoldText(key), w)
  }

  const REDACTED := JStr("[REDACTED]")

  function Redact(j: Json): Json {
    match j
    case JObj(m) => JObj(map k | k in m :: if Sensitive(k) then REDACTED else Redact(m[k]))
    case JArr(xs) => JArr(seq(|xs|, i requires 0 <= i < |xs| => Redact(xs[i])))
    case _ => j
  }

  /** Nothing but the placeholder stands under a sensitive key, at any depth. */
  ghost predicate Clean(j: Json) {
    match j
    case JObj(m) => forall k | k in m :: if Sensitive(k) then m[k] == REDACTED else Clean(m[k])
    case JArr(xs) => forall i | 0 <= i < |xs| :: Clean(xs[i])
    case _ => true
  }

  lemma {:induction false} RedactIsClean(j: Json)
    ensures Clean(Redact(j))
  {
    hide Sensitive;
    match j
    case JObj(m) => forall k | k in m ensures Clean(Redact(m[k])) { RedactIsClean(m[k]); }
    case JArr(xs) => forall i | 0 <= i < |xs| ensures Clean(Redact(xs[i])) { RedactIsClean(xs[i]); }
    case _ =>
  }

  lemma {:induction false} CleanIsKept(j: Json)
    requires Clean(j)
    ensures Redact(j) == j
  {
    hide Sensitive;
    match j
    case JObj(m) =>
      forall k | k in m && !Sensitive(k) ensures Redact(m[k]) == m[k] { CleanIsKept(m[k]); }
      assert Redact(j).fields == m;
    case JArr(xs) =>
      forall i | 0 <= i < |xs| ensures Redact(xs[i]) == xs[i] { CleanIsKept(xs[i]); }
      assert Redact(j).items == xs;
    case _ =>
  }

  /** Redaction always produces a clean value and changes exactly the values that are not clean; so
      it is idempotent. */
  lemma RedactExactly(j: Json)
    ensures Clean(Redact(j)) && (Redact(j) == j <==> Clean(j)) && Redact(Redact(j)) == Redact(j)
  {
    hide Redact, Clean;
    RedactIsClean(j);
    CleanIsKept(Redact(j));
    if Clean(j) { CleanIsKept(j); }
  }

  /** One step into a JSON value. */
  datatype PathStep = Key(name: string) | Item(index: nat)

  /** The value at the end of a path. */
  function Look(j: Json, path: seq<PathStep>): Option<Json>
    decreases |path|
  {
    if path == [] then Some(j)
    else
      match path[0]
      case Key(k) => if j.JObj? && k in j.fields then Look(j.fields[k], path[1..]) else None
      case Item(i) => if j.JArr? && i < |j.items| then Look(j.items[i], path[1..]) else None
  }

  ghost predicate PlainPath(path: seq<PathStep>) { forall s | s in path :: s.Key? ==> !Sensitive(s.name) }

  /** Apart from what stands under sensitive keys redaction changes nothing: a path without such keys leads
      to something exactly when it did, to the same scalar, the same keys, or as many items. */
  lemma {:induction false} RedactKeepsPlain(j: Json, path: seq<PathStep>)
    requires PlainPath(path)
    ensures var before, after := Look(j, path), Look(Redact(j), path);
            && (before.Some? <==> after.Some?)
            && (before.Some? ==>
                  match before.value
                  case JObj(m) => after.value.JObj? && after.value.fields.Keys == m.Keys
                  case JArr(xs) => after.value.JArr? && |after.value.items| == |xs|
                  case _ => after == before)
    decreases |path|
  {
    hide Sensitive;
    if path != [] {
      var step, rest := path[0], path[1..];
      assert step in path && forall s | s in rest :: s in path;
      if step.Key? && j.JObj? && step.name in j.fields { RedactKeepsPlain(j.fields[step.name], rest); }
      if step.Item? && j.JArr? && step.index < |j.items| { RedactKeepsPlain(j.items[step.index], rest); }
    }
  }

  /** And under a sensitive key, at any depth, stands the placeholder. */
  lemma {:induction false} RedactHides(j: Json, path: seq<PathStep>, key: string)
    requires PlainPath(path) && Sensitive(key)
    ensures Look(j, path + [Key(key)]).Some? ==> Look(Redact(j), path + [Key(key)]) == Some(JStr("[REDACTED]"))
    decreases |path|
  {
    hide Sensitive;
    if path == [] {
      assert (path + [Key(key)])[1..] == [];
    } else {
      var step, rest := path[0], path[1..];
      assert (path + [Key(key)])[1..] == rest + [Key(key)];
      assert step in path && forall s | s in rest :: s in path;
      if step.Key? && j.JObj? && step.name in j.fields { RedactHides(j.fields[step.name], rest, key); }
      if step.Item? && j.JArr? && step.index < |j.items| { RedactHides(j.items[step.index], rest, key); }
    }
  }

  /** `c` is the letter `l` or one that case folding takes to it. */
  ghost predicate Letter(c: char, l: char) {
    || (c == l && !('A' <= l <= 'Z')) || ('a' <= l <= 'z' && c == l - 'a' + 'A')
    || (l == 's' && c == '\U{017F}') || (l == 'i' && (c == '\U{0130}' || c == '\U{0131}'))
    || (l == 'k' && c == '\U{212A}')
  }

  ghost predicate Spells(key: string, i: int, word: string) {
    0 <= i <= |key| - |word| && forall j | 0 <= j < |word| :: Letter(key[i + j], word[j])
  }

  ghost predicate Mentions(key: string, word: string) { exists i :: Spells(key, i, word) }

  /** A key is sensitive exactly when, whatever the case, it spells one of the five words somewhere. */
  lemma SensitiveExactly(key: string)
    ensures Sensitive(key) <==>
              || Mentions(key, "secret") || Mentions(key, "token") || Mentions(key, "password")
              || Mentions(key, "authorization") || Mentions(key, "credential")
  {
    hide Mentions, Contains;
    assert SENSITIVE_WORDS[0] in SENSITIVE_WORDS && SENSITIVE_WORDS[1] in SENSITIVE_WORDS
        && SENSITIVE_WORDS[2] in SENSITIVE_WORDS && SENSITIVE_WORDS[3] in SENSITIVE_WORDS
        && SENSITIVE_WORDS[4] in SENSITIVE_WORDS;
    ContainsExactly(key, "secret");
    ContainsExactly(key, "token");
    ContainsExactly(key, "password");
    ContainsExactly(key, "authorization");
    ContainsExactly(key, "credential");
  }

  lemma ContainsExactly(key: string, word: string)
    requires forall l | l in word :: 'a' <= l <= 'z'
    ensures Contains(FoldText(key), word) <==> Mentions(key, word)
  {
    forall i ensures OccursAt(FoldText(key), word, i) <==> Spells(key, i, word) {
      if 0 <= i <= |key| - |word| { OccursExactly(key, word, i); }
    }
    hide OccursAt, Spells;
    assert forall i :: OccursAt(FoldText(key), word, i) ==> 0 <= i <= |FoldText(key)| by { }
  }

  lemma OccursExactly(key: string, word: string, i: int)
    requires 0 <= i <= |key| - |word| && forall l | l in word :: 'a' <= l <= 'z'
    ensures OccursAt(FoldText(key), word, i) <==> Spells(key, i, word)
  {
    var part := FoldText(key)[i..i + |word|];
    forall j | 0 <= j < |word|
      ensures part[j] == Fold(key[i + j]) && (part[j] == word[j] <==> Letter(key[i + j], word[j]))
    {
      assert word[j] in word;
    }
    hide Fold, Letter;
  }

  /** Lower-case, and without the letters and pairs of letters that the sensitive words cannot do without. */
  ghost predicate Ordinary(key: string) {
    && (forall i | 0 <= i < |key| :: (key[i] == '_' || 'a' <= key[i] <= 'z') && key[i] != 'w' && key[i] != 'z')
    && (forall i | 0 <= i < |key| - 1 :: (key[i] == 'c' ==> key[i + 1] != 'r') && (key[i] == 'k' ==> key[i + 1] != 'e'))
  }

  lemma MissingLetter(hay: string, needle: string, c: char)
    requires c in needle && c !in hay
    ensures !Contains(hay, needle)
  {
    forall i | 0 <= i <= |hay| - |needle| ensures !OccursAt(hay, needle, i) {
      assert c !in hay[i..i + |needle|];
    }
  }

  lemma MissingPair(hay: string, needle: string, k: nat)
    requires k + 1 < |needle|
    requires forall i | 0 <= i < |hay| - 1 :: hay[i] == needle[k] ==> hay[i + 1] != needle[k + 1]
    ensures !Contains(hay, needle)
  {
    forall i | 0 <= i <= |hay| - |needle| ensures !OccursAt(hay, needle, i) {
      assert hay[i..i + |needle|][k] == hay[i + k] && hay[i..i + |needle|][k + 1] == hay[i + k + 1];
    }
  }

  lemma OrdinaryJoined(a: string, b: string)
    requires Ordinary(a) && Ordinary(b) && a != [] && a[|a| - 1] == '_'
    ensures Ordinary(a + b)
  {}

  lemma OrdinaryPlain(key: string)
    requires Ordinary(key)
    ensures !Sensitive(key)
  {
    assert FoldText(key) == key;
    MissingPair(key, "secret", 2);
    MissingPair(key, "token", 2);
    MissingLetter(key, "password", 'w');
    MissingLetter(key, "authorization", 'z');
    MissingPair(key, "credential", 0);
    NoneOccurs(key);
  }

  lemma NoneOccurs(key: string)
    requires FoldText(key) == key
    requires !Contains(key, "secret") && !Contains(key, "token") && !Contains(key, "password")
    requires !Contains(key, "authorization") && !Contains(key, "credential")
    ensures !Sensitive(key)
  {
    hide Contains, FoldText;
  }

  predicate EventKey(key: string) {
    || key == "from" || key == "to" || key == "at" || key == "actor" || key == "reason" || key == "approved"
    || key == "sequence" || key == "previous_hash" || key == "event_hash"
  }

  lemma MoveKeysOrdinary()
    ensures Ordinary("from") && Ordinary("to") && Ordinary("at") && Ordinary("actor")
  {}

  lemma MoreMoveKeysOrdinary()
    ensures Ordinary("reason") && Ordinary("events")
  {}

  lemma ApprovalKeysOrdinary()
    ensures Ordinary("approved") && Ordinary("sequence")
  {}

  lemma HashKeysOrdinary()
    ensures Ordinary("previous_hash") && Ordinary("event_hash")
  {}

  lemma EventKeyPlain(key: string)
    requires EventKey(key) || key == "events"
    ensures !Sensitive(key)
  {
    hide Sensitive, Ordinary;
    MoveKeysOrdinary();
    MoreMoveKeysOrdinary();
    ApprovalKeysOrdinary();
    HashKeysOrdinary();
    OrdinaryPlain(key);
  }

  ghost predicate Scalar(j: Json) { !j.JArr? && !j.JObj? }

  /** An event with only the known keys and scalar values. */
  ghost predicate PlainEvent(e: Event) {
    forall k | k in e :: EventKey(k) && Scalar(e[k])
  }

  lemma PlainEventClean(e: Event)
    requires PlainEvent(e)
    ensures Redact(JObj(e)) == JObj(e)
  {
    hide Sensitive, EventKey;
    forall k | k in e ensures !Sensitive(k) && Clean(e[k]) { EventKeyPlain(k); }
    RedactExactly(JObj(e));
  }
}
