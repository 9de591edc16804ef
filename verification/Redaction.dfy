/**
 Redaction of packets for logs and diagnostics. Only the text of a mapping's key matters, so two
 distinct keys may share one text. Normalising a key, the salted fingerprint of a value's text and
 decimal numerals are given functions.
 */
module Redaction {
  datatype Value =
    | Null
    | Bool(b: bool)
    | Num(n: real)
    | Str(s: string)
    | List(items: seq<Value>)
    | Map(entries: seq<Entry>)
    | Other(typeName: string)

  datatype Entry = Entry(key: string, value: Value)

  datatype Redactor = Redactor(
    normalize: string -> string,
    fingerprint: Value -> string,
    show: nat -> string,
    strict: bool)

  const MAX_DEPTH := 6
  const MAX_ITEMS := 50

  const SECRET_KEYS: set<string> := {
    "accesstoken", "authorization", "dynamickey", "key", "password", "passwordmd5",
    "phonetoken", "phonenumber", "secret", "sessionid", "sessionkey", "token"}

  const IDENTIFIER_KEYS: set<string> := {
    "account", "deviceid", "email", "familyid", "identifier", "mac",
    "parentuid", "phone", "uid", "userid", "username"}

  predicate IsSecret(r: Redactor, key: string) {
    r.normalize(key) in SECRET_KEYS
  }

  predicate IsIdentifier(r: Redactor, key: string) {
    r.normalize(key) in IDENTIFIER_KEYS
  }

  // ---- Keys ----

  predicate IsLetter(c: char) {
    'a' <= c <= 'z' || 'A' <= c <= 'Z'
  }

  predicate IsDigit(c: char) {
    '0' <= c <= '9'
  }

  predicate IsSafeName(text: string) {
    && 1 <= |text| <= 64 && IsLetter(text[0])
    && forall c | c in text :: IsLetter(c) || IsDigit(c) || c == '_'
  }

  predicate IsHexName(text: string) {
    12 <= |text| <= 64 && forall c | c in text :: 'a' <= c <= 'f' || 'A' <= c <= 'F' || IsDigit(c)
  }

  function RedactedKey(r: Redactor, key: string): string {
    if IsSafeName(key) && !IsHexName(key) then key else r.fingerprint(Str(key))
  }

  // ---- Values ----

  function Min(a: nat, b: nat): nat {
    if a <= b then a else b
  }

  /** Assignment into a dictionary: an existing key keeps its place. */
  function Put(entries: seq<Entry>, key: string, value: Value): (result: seq<Entry>)
    ensures |result| <= |entries| + 1
  {
    if entries == [] then [Entry(key, value)]
    else if entries[0].key == key then [Entry(key, value)] + entries[1..]
    else [entries[0]] + Put(entries[1..], key, value)
  }

  /** The kept entries of a mapping of `total` entries, with a note of how many were cut off. */
  function Cut(kept: seq<Entry>, total: nat): seq<Entry> {
    if total > MAX_ITEMS then Put(kept, "<truncated>", Num((total - MAX_ITEMS) as real)) else kept
  }

  /** `redact_packet`. */
  function Redact(r: Redactor, value: Value, key: string, depth: nat): Value
    decreases value, 0
  {
    if IsSecret(r, key) then Str("<redacted>")
    else if IsIdentifier(r, key) && value != Null then Str(r.fingerprint(value))
    else if depth >= MAX_DEPTH then Str("<max-depth>")
    else
      match value
      case Map(entries) =>
        var kept := RedactEntries(r, entries, Min(MAX_ITEMS, |entries|), depth + 1);
        Map(Cut(kept, |entries|))
      case List(items) =>
        var kept := RedactItems(r, items, Min(MAX_ITEMS, |items|), key, depth + 1);
        List(if |items| > MAX_ITEMS then kept + [Str("<truncated:" + r.show(|items| - MAX_ITEMS) + ">")] else kept)
      case Str(s) => if r.strict then Str("<string:length=" + r.show(|s|) + ">") else value
      case Other(typeName) => Str("<" + typeName + ">")
      case _ => value
  }

  /** The first `n` entries. */
  function RedactEntries(r: Redactor, entries: seq<Entry>, n: nat, depth: nat): seq<Entry>
    requires n <= |entries|
    decreases entries, n
  {
    if n == 0 then []
    else
      var Entry(key, value) := entries[n - 1];
      Put(RedactEntries(r, entries, n - 1, depth), RedactedKey(r, key), Redact(r, value, key, depth))
  }

  function RedactItems(r: Redactor, items: seq<Value>, n: nat, key: string, depth: nat): seq<Value>
    requires n <= |items|
    decreases items, n
  {
    if n == 0 then [] else RedactItems(r, items, n - 1, key, depth) + [Redact(r, items[n - 1], key, depth)]
  }

  // ---- What cannot be seen ----

  /**
   Two values that may differ under secret keys, past the size and depth limits and, in strict mode,
   in the contents of strings; but in nothing below an identifier key, unless that is itself hidden.
   */
  predicate Alike(r: Redactor, v: Value, w: Value, key: string, depth: nat)
    decreases v, 1
  {
    || IsSecret(r, key)
    || v == w
    || (!IsIdentifier(r, key) && (depth >= MAX_DEPTH || AlikeInside(r, v, w, key, depth)))
  }

  predicate AlikeInside(r: Redactor, v: Value, w: Value, key: string, depth: nat)
    decreases v, 0
  {
    match (v, w)
    case (Map(a), Map(b)) => |a| == |b| && AlikeEntries(r, a, b, Min(MAX_ITEMS, |a|), depth + 1)
    case (List(a), List(b)) => |a| == |b| && AlikeItems(r, a, b, Min(MAX_ITEMS, |a|), key, depth + 1)
    case (Str(a), Str(b)) => r.strict && |a| == |b|
    case _ => false
  }

  predicate AlikeEntries(r: Redactor, a: seq<Entry>, b: seq<Entry>, n: nat, depth: nat)
    requires n <= |a| == |b|
    decreases a, n
  {
    n == 0 || (a[n - 1].key == b[n - 1].key && Alike(r, a[n - 1].value, b[n - 1].value, a[n - 1].key, depth)
               && AlikeEntries(r, a, b, n - 1, depth))
  }

  predicate AlikeItems(r: Redactor, a: seq<Value>, b: seq<Value>, n: nat, key: string, depth: nat)
    requires n <= |a| == |b|
    decreases a, n
  {
    n == 0 || (Alike(r, a[n - 1], b[n - 1], key, depth) && AlikeItems(r, a, b, n - 1, key, depth))
  }

  /** Redaction does not tell such values apart. */
  lemma {:induction false} AlikeValuesRedactAlike(r: Redactor, v: Value, w: Value, key: string, depth: nat)
    requires Alike(r, v, w, key, depth)
    ensures Redact(r, v, key, depth) == Redact(r, w, key, depth)
    decreases v, 0
  {
    if !IsSecret(r, key) && v != w && depth < MAX_DEPTH {
      match (v, w)
      case (Map(a), Map(b)) => AlikeEntriesRedactAlike(r, a, b, Min(MAX_ITEMS, |a|), depth + 1);
      case (List(a), List(b)) => AlikeItemsRedactAlike(r, a, b, Min(MAX_ITEMS, |a|), key, depth + 1);
      case _ =>
    }
  }

  lemma {:induction false} AlikeEntriesRedactAlike(r: Redactor, a: seq<Entry>, b: seq<Entry>, n: nat, depth: nat)
    requires n <= |a| == |b| && AlikeEntries(r, a, b, n, depth)
    ensures RedactEntries(r, a, n, depth) == RedactEntries(r, b, n, depth)
    decreases a, n
  {
    if n > 0 {
      AlikeEntriesRedactAlike(r, a, b, n - 1, depth);
      AlikeValuesRedactAlike(r, a[n - 1].value, b[n - 1].value, a[n - 1].key, depth);
    }
  }

  lemma {:induction false} AlikeItemsRedactAlike(r: Redactor, a: seq<Value>, b: seq<Value>, n: nat, key: string, depth: nat)
    requires n <= |a| == |b| && AlikeItems(r, a, b, n, key, depth)
    ensures RedactItems(r, a, n, key, depth) == RedactItems(r, b, n, key, depth)
    decreases a, n
  {
    if n > 0 {
      AlikeItemsRedactAlike(r, a, b, n - 1, key, depth);
      AlikeValuesRedactAlike(r, a[n - 1], b[n - 1], key, depth);
    }
  }

  // ---- What can be seen of secrets ----

  /** Two values with the same shape, names and other values, whatever they hold under secret keys. */
  predicate SameButSecrets(r: Redactor, v: Value, w: Value, key: string)
    decreases v, 1
  {
    IsSecret(r, key) || v == w || SameInside(r, v, w, key)
  }

  predicate SameInside(r: Redactor, v: Value, w: Value, key: string)
    decreases v, 0
  {
    match (v, w)
    case (Map(a), Map(b)) => |a| == |b| && SameEntries(r, a, b, |a|)
    case (List(a), List(b)) => |a| == |b| && SameItems(r, a, b, key, |a|)
    case _ => false
  }

  predicate SameEntries(r: Redactor, a: seq<Entry>, b: seq<Entry>, n: nat)
    requires n <= |a| == |b|
    decreases a, n
  {
    n == 0 || (a[n - 1].key == b[n - 1].key && SameButSecrets(r, a[n - 1].value, b[n - 1].value, a[n - 1].key)
               && SameEntries(r, a, b, n - 1))
  }

  predicate SameItems(r: Redactor, a: seq<Value>, b: seq<Value>, key: string, n: nat)
    requires n <= |a| == |b|
    decreases a, n
  {
    n == 0 || (SameButSecrets(r, a[n - 1], b[n - 1], key) && SameItems(r, a, b, key, n - 1))
  }

  /**
   The fingerprints agree at every identifier that is reached within the limits and not overwritten
   by a later entry with the same redacted name.
   */
  predicate FingerprintsAgree(r: Redactor, v: Value, w: Value, key: string, depth: nat)
    decreases v, 1
  {
    || IsSecret(r, key)
    || (if IsIdentifier(r, key) && v != Null then r.fingerprint(v) == r.fingerprint(w)
        else depth >= MAX_DEPTH || FingerprintsAgreeInside(r, v, w, key, depth))
  }

  predicate FingerprintsAgreeInside(r: Redactor, v: Value, w: Value, key: string, depth: nat)
    decreases v, 0
  {
    match (v, w)
    case (Map(a), Map(b)) =>
      |a| == |b| ==> FingerprintsAgreeIn(r, a, b, Min(MAX_ITEMS, |a|), depth + 1, NoteName(|a|))
    case (List(a), List(b)) => |a| == |b| ==> FingerprintsAgreeAmong(r, a, b, key, Min(MAX_ITEMS, |a|), depth + 1)
    case _ => true
  }

  /** The name that the note of a cut-off mapping takes. */
  function NoteName(total: nat): set<string> {
    if total > MAX_ITEMS then {"<truncated>"} else {}
  }

  predicate FingerprintsAgreeIn(r: Redactor, a: seq<Entry>, b: seq<Entry>, n: nat, depth: nat, hidden: set<string>)
    requires n <= |a| == |b|
    decreases a, n
  {
    n == 0 ||
    var name := RedactedKey(r, a[n - 1].key);
    && (name in hidden || FingerprintsAgree(r, a[n - 1].value, b[n - 1].value, a[n - 1].key, depth))
    && FingerprintsAgreeIn(r, a, b, n - 1, depth, hidden + {name})
  }

  predicate FingerprintsAgreeAmong(r: Redactor, a: seq<Value>, b: seq<Value>, key: string, n: nat, depth: nat)
    requires n <= |a| == |b|
    decreases a, n
  {
    n == 0 || (FingerprintsAgree(r, a[n - 1], b[n - 1], key, depth) && FingerprintsAgreeAmong(r, a, b, key, n - 1, depth))
  }

  /** The same names in the same places, and the same values except under the names in `hidden`. */
  predicate EqualExcept(a: seq<Entry>, b: seq<Entry>, hidden: set<string>) {
    |a| == |b| && forall i | 0 <= i < |a| :: a[i].key == b[i].key && (a[i].key in hidden || a[i].value == b[i].value)
  }

  predicate Distinct(entries: seq<Entry>) {
    forall i, j | 0 <= i < j < |entries| :: entries[i].key != entries[j].key
  }

  predicate SameNames(a: seq<Entry>, b: seq<Entry>) {
    |a| == |b| && forall i | 0 <= i < |a| :: a[i].key == b[i].key
  }

  lemma {:induction false} PutKeepsNames(a: seq<Entry>, b: seq<Entry>, name: string, x: Value, y: Value)
    requires Distinct(a) && SameNames(a, b)
    ensures Distinct(Put(a, name, x)) && SameNames(Put(a, name, x), Put(b, name, y))
    ensures forall e | e in Put(a, name, x) :: e.key == name || exists f :: f in a && f.key == e.key
  {
    if a != [] && a[0].key != name {
      assert Distinct(a[1..]) && SameNames(a[1..], b[1..]);
      PutKeepsNames(a[1..], b[1..], name, x, y);
      var rest := Put(a[1..], name, x);
      forall i | 0 <= i < |rest| ensures rest[i].key != a[0].key {
        assert rest[i] in rest;
      }
    }
  }

  /** Putting a value under a name: its agreement replaces what was under that name before. */
  lemma {:induction false} PutEqualExcept(a: seq<Entry>, b: seq<Entry>, name: string, x: Value, y: Value, hidden: set<string>)
    requires Distinct(a) && SameNames(a, b)
    ensures EqualExcept(Put(a, name, x), Put(b, name, y), hidden)
       <==> (name in hidden || x == y) && EqualExcept(a, b, hidden + {name})
  {
    if a == [] {
      assert Put(a, name, x) == [Entry(name, x)] && Put(b, name, y) == [Entry(name, y)];
    } else if a[0].key == name {
      assert b[0].key == name;
      HeadEqualExcept(Entry(name, x), Entry(name, y), a[1..], b[1..], hidden);
      HeadEqualExcept(a[0], b[0], a[1..], b[1..], hidden + {name});
      assert a == [a[0]] + a[1..] && b == [b[0]] + b[1..];
      assert forall i | 0 <= i < |a[1..]| :: a[1..][i].key == a[i + 1].key != name;
    } else {
      PutEqualExcept(a[1..], b[1..], name, x, y, hidden);
      HeadEqualExcept(a[0], b[0], Put(a[1..], name, x), Put(b[1..], name, y), hidden);
      HeadEqualExcept(a[0], b[0], a[1..], b[1..], hidden + {name});
      assert a == [a[0]] + a[1..] && b == [b[0]] + b[1..];
    }
  }

  lemma HeadEqualExcept(e: Entry, f: Entry, a: seq<Entry>, b: seq<Entry>, hidden: set<string>)
    ensures EqualExcept([e] + a, [f] + b, hidden)
       <==> e.key == f.key && (e.key in hidden || e.value == f.value) && EqualExcept(a, b, hidden)
  {
    if EqualExcept([e] + a, [f] + b, hidden) {
      assert ([e] + a)[0] == e && ([f] + b)[0] == f;
      forall i | 0 <= i < |a| ensures a[i].key == b[i].key && (a[i].key in hidden || a[i].value == b[i].value) {
        assert ([e] + a)[i + 1] == a[i] && ([f] + b)[i + 1] == b[i];
      }
    }
  }

  lemma {:induction false} EntriesHaveNames(r: Redactor, a: seq<Entry>, b: seq<Entry>, n: nat, depth: nat)
    requires n <= |a| == |b| && SameEntries(r, a, b, n)
    ensures Distinct(RedactEntries(r, a, n, depth)) && SameNames(RedactEntries(r, a, n, depth), RedactEntries(r, b, n, depth))
    decreases n
  {
    if n > 0 {
      EntriesHaveNames(r, a, b, n - 1, depth);
      PutKeepsNames(RedactEntries(r, a, n - 1, depth), RedactEntries(r, b, n - 1, depth), RedactedKey(r, a[n - 1].key),
                    Redact(r, a[n - 1].value, a[n - 1].key, depth), Redact(r, b[n - 1].value, b[n - 1].key, depth));
    }
  }

  /**
   Packets that agree up to their secrets redact to equal results if and only if the fingerprints agree
   at every identifier reached: a secret shows through a fingerprint taken above it, and nowhere else.
   */
  lemma {:induction false} SecretsShowIff(r: Redactor, v: Value, w: Value, key: string, depth: nat)
    requires SameButSecrets(r, v, w, key)
    ensures Redact(r, v, key, depth) == Redact(r, w, key, depth) <==> FingerprintsAgree(r, v, w, key, depth)
    decreases v, 1
  {
    if v == w {
      EqualFingerprintsAgree(r, v, key, depth);
    } else if !IsSecret(r, key) && !IsIdentifier(r, key) && depth < MAX_DEPTH {
      match (v, w)
      case (Map(a), Map(b)) => MapsShowIff(r, a, b, depth + 1);
      case (List(a), List(b)) => ListsShowIff(r, a, b, key, depth);
    }
  }

  lemma {:induction false} MapsShowIff(r: Redactor, a: seq<Entry>, b: seq<Entry>, depth: nat)
    requires |a| == |b| && SameEntries(r, a, b, |a|)
    ensures Cut(RedactEntries(r, a, Min(MAX_ITEMS, |a|), depth), |a|) == Cut(RedactEntries(r, b, Min(MAX_ITEMS, |a|), depth), |a|)
       <==> FingerprintsAgreeIn(r, a, b, Min(MAX_ITEMS, |a|), depth, NoteName(|a|))
    decreases a, |a| + 1
  {
    var n := Min(MAX_ITEMS, |a|);
    SameEntriesPrefix(r, a, b, |a|, n);
    EntriesHaveNames(r, a, b, n, depth);
    EntriesShowIff(r, a, b, n, depth, NoteName(|a|));
    CutShowsIff(RedactEntries(r, a, n, depth), RedactEntries(r, b, n, depth), |a|);
  }

  lemma CutShowsIff(x: seq<Entry>, y: seq<Entry>, total: nat)
    requires Distinct(x) && SameNames(x, y)
    ensures EqualExcept(x, y, NoteName(total)) <==> Cut(x, total) == Cut(y, total)
  {
    EqualExceptNothing(Cut(x, total), Cut(y, total));
    if total > MAX_ITEMS {
      var cut := Num((total - MAX_ITEMS) as real);
      PutEqualExcept(x, y, "<truncated>", cut, cut, {});
      assert {} + {"<truncated>"} == {"<truncated>"};
    }
  }

  lemma EqualExceptNothing(a: seq<Entry>, b: seq<Entry>)
    ensures EqualExcept(a, b, {}) <==> a == b
  {
    if EqualExcept(a, b, {}) {
      assert forall i | 0 <= i < |a| :: a[i] == b[i];
    }
  }

  lemma {:induction false} SameEntriesPrefix(r: Redactor, a: seq<Entry>, b: seq<Entry>, n: nat, m: nat)
    requires m <= n <= |a| == |b| && SameEntries(r, a, b, n)
    ensures SameEntries(r, a, b, m)
    decreases n
  {
    if m < n {
      SameEntriesPrefix(r, a, b, n - 1, m);
    }
  }

  lemma {:induction false} EntriesShowIff(r: Redactor, a: seq<Entry>, b: seq<Entry>, n: nat, depth: nat, hidden: set<string>)
    requires n <= |a| == |b| && SameEntries(r, a, b, n)
    ensures EqualExcept(RedactEntries(r, a, n, depth), RedactEntries(r, b, n, depth), hidden)
       <==> FingerprintsAgreeIn(r, a, b, n, depth, hidden)
    decreases a, n
  {
    if n > 0 {
      var Entry(key, x) := a[n - 1];
      var y, name := b[n - 1].value, RedactedKey(r, key);
      EntriesHaveNames(r, a, b, n - 1, depth);
      SecretsShowIff(r, x, y, key, depth);
      EntriesShowIff(r, a, b, n - 1, depth, hidden + {name});
      PutEqualExcept(RedactEntries(r, a, n - 1, depth), RedactEntries(r, b, n - 1, depth), name,
                     Redact(r, x, key, depth), Redact(r, y, key, depth), hidden);
    }
  }

  lemma {:induction false} ListsShowIff(r: Redactor, a: seq<Value>, b: seq<Value>, key: string, depth: nat)
    requires |a| == |b| && SameItems(r, a, b, key, |a|) && !IsSecret(r, key) && !IsIdentifier(r, key) && depth < MAX_DEPTH
    ensures Redact(r, List(a), key, depth) == Redact(r, List(b), key, depth)
       <==> FingerprintsAgreeInside(r, List(a), List(b), key, depth)
    decreases a, |a| + 1
  {
    var n := Min(MAX_ITEMS, |a|);
    var x, y := RedactItems(r, a, n, key, depth + 1), RedactItems(r, b, n, key, depth + 1);
    SameItemsPrefix(r, a, b, key, |a|, n);
    ItemsShowIff(r, a, b, key, n, depth + 1);
    if |a| > MAX_ITEMS {
      var cut := Str("<truncated:" + r.show(|a| - MAX_ITEMS) + ">");
      assert (x + [cut])[..n] == x && (y + [cut])[..n] == y;
    }
  }

  lemma {:induction false} SameItemsPrefix(r: Redactor, a: seq<Value>, b: seq<Value>, key: string, n: nat, m: nat)
    requires m <= n <= |a| == |b| && SameItems(r, a, b, key, n)
    ensures SameItems(r, a, b, key, m)
    decreases n
  {
    if m < n {
      SameItemsPrefix(r, a, b, key, n - 1, m);
    }
  }

  lemma {:induction false} ItemsShowIff(r: Redactor, a: seq<Value>, b: seq<Value>, key: string, n: nat, depth: nat)
    requires n <= |a| == |b| && SameItems(r, a, b, key, n)
    ensures |RedactItems(r, a, n, key, depth)| == |RedactItems(r, b, n, key, depth)| == n
    ensures RedactItems(r, a, n, key, depth) == RedactItems(r, b, n, key, depth)
       <==> FingerprintsAgreeAmong(r, a, b, key, n, depth)
    decreases a, n
  {
    if n > 0 {
      ItemsShowIff(r, a, b, key, n - 1, depth);
      SecretsShowIff(r, a[n - 1], b[n - 1], key, depth);
      var x, y := RedactItems(r, a, n - 1, key, depth), RedactItems(r, b, n - 1, key, depth);
      var p, q := Redact(r, a[n - 1], key, depth), Redact(r, b[n - 1], key, depth);
      assert x + [p] == y + [q] <==> x == y && p == q by {
        if x + [p] == y + [q] {
          assert (x + [p])[..n - 1] == x && (y + [q])[..n - 1] == y && (x + [p])[n - 1] == p && (y + [q])[n - 1] == q;
        }
      }
    }
  }

  lemma {:induction false} EqualFingerprintsAgree(r: Redactor, v: Value, key: string, depth: nat)
    ensures FingerprintsAgree(r, v, v, key, depth)
    decreases v, 1
  {
    if !IsSecret(r, key) && !(IsIdentifier(r, key) && v != Null) && depth < MAX_DEPTH {
      match v
      case Map(a) =>
        EqualEntriesAgree(r, a, Min(MAX_ITEMS, |a|), depth + 1, NoteName(|a|));
      case List(a) => EqualItemsAgree(r, a, key, Min(MAX_ITEMS, |a|), depth + 1);
      case _ =>
    }
  }

  lemma {:induction false} EqualEntriesAgree(r: Redactor, a: seq<Entry>, n: nat, depth: nat, hidden: set<string>)
    requires n <= |a|
    ensures FingerprintsAgreeIn(r, a, a, n, depth, hidden)
    decreases a, n
  {
    if n > 0 {
      EqualFingerprintsAgree(r, a[n - 1].value, a[n - 1].key, depth);
      EqualEntriesAgree(r, a, n - 1, depth, hidden + {RedactedKey(r, a[n - 1].key)});
    }
  }

  lemma {:induction false} EqualItemsAgree(r: Redactor, a: seq<Value>, key: string, n: nat, depth: nat)
    requires n <= |a|
    ensures FingerprintsAgreeAmong(r, a, a, key, n, depth)
    decreases a, n
  {
    if n > 0 {
      EqualFingerprintsAgree(r, a[n - 1], key, depth);
      EqualItemsAgree(r, a, key, n - 1, depth);
    }
  }

  /** A packet in which a secret shows: below a user id. */
  lemma SecretBelowIdentifierShowsIff(r: Redactor, x: Value, y: Value)
    requires r.normalize("") == "" && r.normalize("userId") == "userid" && r.normalize("password") == "password"
    ensures var v, w := Map([Entry("password", x)]), Map([Entry("password", y)]);
            && Redact(r, v, "", 0) == Redact(r, w, "", 0)
            && (Redact(r, Map([Entry("userId", v)]), "", 0) == Redact(r, Map([Entry("userId", w)]), "", 0) <==>
                  r.fingerprint(v) == r.fingerprint(w))
  {
    var v, w := Map([Entry("password", x)]), Map([Entry("password", y)]);
    OneEntry(r, "password", x);
    OneEntry(r, "password", y);
    OneEntry(r, "userId", v);
    OneEntry(r, "userId", w);
  }

  lemma OneEntry(r: Redactor, key: string, v: Value)
    requires r.normalize("") == "" && RedactedKey(r, key) == key
    ensures Redact(r, Map([Entry(key, v)]), "", 0) == Map([Entry(key, Redact(r, v, key, 1))])
  {
    assert RedactEntries(r, [Entry(key, v)], 0, 1) == [];
  }

  // ---- How much is seen ----

  /** At most `levels` nested containers, of at most 51 entries each. */
  predicate Bounded(v: Value, levels: nat) {
    match v
    case Map(entries) => levels > 0 && |entries| <= MAX_ITEMS + 1 && forall e | e in entries :: Bounded(e.value, levels - 1)
    case List(items) => levels > 0 && |items| <= MAX_ITEMS + 1 && forall i | i in items :: Bounded(i, levels - 1)
    case _ => true
  }

  predicate BoundedEntries(entries: seq<Entry>, levels: nat) {
    forall e | e in entries :: Bounded(e.value, levels)
  }

  lemma {:induction false} PutKeepsBounds(entries: seq<Entry>, key: string, value: Value, levels: nat)
    requires BoundedEntries(entries, levels) && Bounded(value, levels)
    ensures BoundedEntries(Put(entries, key, value), levels)
  {
    if entries != [] && entries[0].key != key {
      PutKeepsBounds(entries[1..], key, value, levels);
    }
  }

  lemma CutMapIsBounded(kept: seq<Entry>, total: nat, levels: nat)
    requires |kept| <= MAX_ITEMS && BoundedEntries(kept, levels)
    ensures Bounded(Map(Cut(kept, total)), levels + 1)
  {
    if total > MAX_ITEMS {
      PutKeepsBounds(kept, "<truncated>", Num((total - MAX_ITEMS) as real), levels);
    }
  }

  /** Whatever the input, the output nests at most six containers of at most 51 entries each. */
  lemma {:induction false} OutputIsBounded(r: Redactor, v: Value, key: string, depth: nat)
    requires depth <= MAX_DEPTH
    ensures Bounded(Redact(r, v, key, depth), MAX_DEPTH - depth)
    decreases v, 0
  {
    if !IsSecret(r, key) && !(IsIdentifier(r, key) && v != Null) && depth < MAX_DEPTH {
      match v
      case Map(entries) => MapIsBounded(r, entries, depth + 1);
      case List(items) => ItemsAreBounded(r, items, Min(MAX_ITEMS, |items|), key, depth + 1);
      case _ =>
    }
  }

  lemma {:induction false} MapIsBounded(r: Redactor, entries: seq<Entry>, depth: nat)
    requires depth <= MAX_DEPTH
    ensures Bounded(Map(Cut(RedactEntries(r, entries, Min(MAX_ITEMS, |entries|), depth), |entries|)), MAX_DEPTH - depth + 1)
    decreases entries, |entries| + 1
  {
    EntriesAreBounded(r, entries, Min(MAX_ITEMS, |entries|), depth);
    CutMapIsBounded(RedactEntries(r, entries, Min(MAX_ITEMS, |entries|), depth), |entries|, MAX_DEPTH - depth);
  }

  lemma {:induction false} EntriesAreBounded(r: Redactor, entries: seq<Entry>, n: nat, depth: nat)
    requires n <= |entries| && depth <= MAX_DEPTH
    ensures |RedactEntries(r, entries, n, depth)| <= n
    ensures BoundedEntries(RedactEntries(r, entries, n, depth), MAX_DEPTH - depth)
    decreases entries, n
  {
    if n > 0 {
      var Entry(key, value) := entries[n - 1];
      EntriesAreBounded(r, entries, n - 1, depth);
      OutputIsBounded(r, value, key, depth);
      PutKeepsBounds(RedactEntries(r, entries, n - 1, depth), RedactedKey(r, key),
                     Redact(r, value, key, depth), MAX_DEPTH - depth);
    }
  }

  lemma {:induction false} ItemsAreBounded(r: Redactor, items: seq<Value>, n: nat, key: string, depth: nat)
    requires n <= |items| && depth <= MAX_DEPTH
    ensures |RedactItems(r, items, n, key, depth)| == n
    ensures forall i | i in RedactItems(r, items, n, key, depth) :: Bounded(i, MAX_DEPTH - depth)
    decreases items, n
  {
    if n > 0 {
      ItemsAreBounded(r, items, n - 1, key, depth);
      OutputIsBounded(r, items[n - 1], key, depth);
    }
  }

  // ---- What stays readable ----

  /** Within the limits, with plain distinct field names and no secret, identifier or foreign object. */
  predicate Harmless(r: Redactor, v: Value, depth: nat)
    decreases v, 0
  {
    depth < MAX_DEPTH &&
    match v
    case Map(entries) => |entries| <= MAX_ITEMS && HarmlessEntries(r, entries, |entries|, depth + 1)
    case List(items) => |items| <= MAX_ITEMS && forall i | i in items :: Harmless(r, i, depth + 1)
    case Other(_) => false
    case _ => true
  }

  predicate HarmlessEntries(r: Redactor, entries: seq<Entry>, n: nat, depth: nat)
    requires n <= |entries|
    decreases entries, n
  {
    n == 0 ||
    var Entry(key, value) := entries[n - 1];
    && RedactedKey(r, key) == key && !IsSecret(r, key) && !IsIdentifier(r, key)
    && (forall j | 0 <= j < n - 1 :: entries[j].key != key)
    && Harmless(r, value, depth) && HarmlessEntries(r, entries, n - 1, depth)
  }

  /** Diagnostics, which are not strict, keep such values as they are. */
  lemma {:induction false} HarmlessValuesAreKept(r: Redactor, v: Value, key: string, depth: nat)
    requires !r.strict && !IsSecret(r, key) && !IsIdentifier(r, key) && Harmless(r, v, depth)
    ensures Redact(r, v, key, depth) == v
    decreases v, 0
  {
    match v
    case Map(entries) =>
      HarmlessEntriesAreKept(r, entries, |entries|, depth + 1);
      assert entries[..|entries|] == entries;
    case List(items) =>
      HarmlessItemsAreKept(r, items, |items|, key, depth + 1);
      assert items[..|items|] == items;
    case _ =>
  }

  lemma {:induction false} HarmlessEntriesAreKept(r: Redactor, entries: seq<Entry>, n: nat, depth: nat)
    requires n <= |entries| && !r.strict && HarmlessEntries(r, entries, n, depth)
    ensures RedactEntries(r, entries, n, depth) == entries[..n]
    decreases entries, n
  {
    if n > 0 {
      var Entry(key, value) := entries[n - 1];
      HarmlessEntriesAreKept(r, entries, n - 1, depth);
      HarmlessValuesAreKept(r, value, key, depth);
      PutAppends(entries[..n - 1], key, value);
      assert entries[..n] == entries[..n - 1] + [Entry(key, value)];
    }
  }

  lemma {:induction false} HarmlessItemsAreKept(r: Redactor, items: seq<Value>, n: nat, key: string, depth: nat)
    requires n <= |items| && !r.strict && !IsSecret(r, key) && !IsIdentifier(r, key)
    requires forall i | i in items :: Harmless(r, i, depth)
    ensures RedactItems(r, items, n, key, depth) == items[..n]
    decreases items, n
  {
    if n > 0 {
      HarmlessItemsAreKept(r, items, n - 1, key, depth);
      HarmlessValuesAreKept(r, items[n - 1], key, depth);
      assert items[..n] == items[..n - 1] + [items[n - 1]];
    }
  }

  lemma {:induction false} PutAppends(entries: seq<Entry>, key: string, value: Value)
    requires forall j | 0 <= j < |entries| :: entries[j].key != key
    ensures Put(entries, key, value) == entries + [Entry(key, value)]
  {
    if entries != [] {
      PutAppends(entries[1..], key, value);
      assert entries == [entries[0]] + entries[1..];
    }
  }
}
