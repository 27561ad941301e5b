/**
 Masking of sensitive values in log payloads. Keys of dictionaries are taken as strings.
 */
module Redaction {
  import opened Options
  import opened Seqs

  datatype Value =
    | Text(text: string)
    | Other(id: int)
    | Dict(entries: seq<(string, Value)>)
    | List(items: seq<Value>)
    | Tuple(items: seq<Value>)

  const SENSITIVE_SUFFIXES: seq<string> := [
    "password", "passwd", "secret", "token", "apikey", "api_key",
    "access_token", "refresh_token", "authorization", "auth",
    "card_cvc", "card_cvv", "cvv", "secret_key", "private_key",
    "webhook_secret", "stripe_secret_key", "stripe_publishable_key",
    "google_client_secret", "csrfmiddlewaretoken"
  ]

  const MASK: Value := Text("***")

  /**
   str.lower() as far as an ASCII suffix can tell: besides A to Z, only the Kelvin sign and
   the dotted capital I lower to something with ASCII in it.
   */
  function LowerChar(c: char): string {
    if 'A' <= c <= 'Z' then [(c as int + 32) as char]
    else if c == '\U{212A}' then "k"
    else if c == '\U{0130}' then ['i', '\U{0307}']
    else [c]
  }

  function Lower(s: string): string {
    if s == "" then "" else LowerChar(s[0]) + Lower(s[1..])
  }

  predicate EndsWith(s: string, suffix: string) {
    |suffix| <= |s| && s[|s| - |suffix|..] == suffix
  }

  predicate EndsWithAny(s: string, suffixes: seq<string>) {
    exists i | 0 <= i < |suffixes| :: EndsWith(s, suffixes[i])
  }

  /** _should_redact_key; being one of the suffixes is ending with it. */
  predicate IsSensitive(key: string) {
    EndsWithAny(Lower(key), SENSITIVE_SUFFIXES)
  }

  /** _join */
  function Join(parent: string, child: string): string {
    if parent != "" then parent + "." + child else child
  }

  /** redact, with the dotted path of the keys above. */
  function Redact(v: Value, path: string): Value
    decreases v
  {
    match v
    case Dict(entries) =>
      Dict(seq(|entries|, i requires 0 <= i < |entries| =>
        var (k, x) := entries[i];
        (k, if IsSensitive(Join(path, k)) then MASK else Redact(x, Join(path, k)))))
    case List(items) => List(seq(|items|, i requires 0 <= i < |items| => Redact(items[i], path)))
    case Tuple(items) => Tuple(seq(|items|, i requires 0 <= i < |items| => Redact(items[i], path)))
    case _ => v
  }

  // ------------------------------------------------------- which keys are sensitive

  /** c lowers to the ASCII letter, digit or underscore s. */
  predicate SameLetter(c: char, s: char) {
    c == s || ('A' <= c <= 'Z' && c as int + 32 == s as int) || (c == '\U{212A}' && s == 'k')
  }

  /** The key ends in the suffix, letter case aside. */
  predicate EndsInAnyCase(key: string, suffix: string) {
    |suffix| <= |key| && forall i | 0 <= i < |suffix| :: SameLetter(key[|key| - |suffix| + i], suffix[i])
  }

  /** Lower-case ASCII letters and underscores only. */
  predicate PlainLower(suffix: string) {
    forall c | c in suffix :: PlainChar(c)
  }

  predicate PlainChar(c: char) {
    'a' <= c <= 'z' || c == '_'
  }

  lemma LowerLast(key: string)
    requires key != ""
    ensures Lower(key) == Lower(key[..|key| - 1]) + LowerChar(key[|key| - 1])
  {
    var n := |key| - 1;
    assert key == key[..n] + [key[n]];
    LowerConcat(key[..n], [key[n]]);
    assert [key[n]][1..] == "";
    assert Lower([key[n]]) == LowerChar(key[n]);
  }

  lemma EndsWithLast(s: string, last: string, suffix: string)
    requires suffix != "" && |last| >= 1
    ensures |last| == 1 ==> (EndsWith(s + last, suffix) <==>
      last[0] == suffix[|suffix| - 1] && EndsWith(s, suffix[..|suffix| - 1]))
    ensures last[|last| - 1] != suffix[|suffix| - 1] ==> !EndsWith(s + last, suffix)
  {
    var whole, n := s + last, |suffix| - 1;
    assert whole[|whole| - 1] == last[|last| - 1];
    if |suffix| <= |whole| {
      var end := whole[|whole| - |suffix|..];
      assert end[n] == last[|last| - 1];
      if |last| == 1 {
        assert end == s[|s| - n..] + last;
        assert suffix == suffix[..n] + [suffix[n]];
      }
    }
  }

  lemma LastLetter(c: char, s: char)
    requires PlainChar(s)
    ensures SameLetter(c, s) <==> LowerChar(c) == [s]
    ensures |LowerChar(c)| == 1 || (LowerChar(c) == ['i', '\U{0307}'] && !SameLetter(c, s))
  {
    if 'A' <= c <= 'Z' {
      assert [(c as int + 32) as char][0] == (c as int + 32) as char;
    }
    assert LowerChar(c) == [s] ==> LowerChar(c)[0] == s;
  }

  lemma EndsWithStep(key: string, suffix: string)
    requires key != "" && suffix != "" && PlainLower(suffix)
    ensures EndsWith(Lower(key), suffix) <==>
      && SameLetter(key[|key| - 1], suffix[|suffix| - 1])
      && EndsWith(Lower(key[..|key| - 1]), suffix[..|suffix| - 1])
  {
    var n, m := |key| - 1, |suffix| - 1;
    var low := LowerChar(key[n]);
    assert suffix[m] in suffix;
    LowerLast(key);
    LastLetter(key[n], suffix[m]);
    EndsWithLast(Lower(key[..n]), low, suffix);
    assert |low| == 1 ==> (low == [suffix[m]] <==> low[0] == suffix[m]);
  }

  lemma {:induction false} EndsWithIff(key: string, suffix: string)
    requires PlainLower(suffix)
    ensures EndsWith(Lower(key), suffix) <==> EndsInAnyCase(key, suffix)
  {
    if suffix != "" && key != "" {
      var init := suffix[..|suffix| - 1];
      assert forall c :: c in init ==> c in suffix;
      EndsWithStep(key, suffix);
      EndsWithIff(key[..|key| - 1], init);
      EndsInLast(key, suffix);
    }
  }

  lemma EndsInLast(key: string, suffix: string)
    requires key != "" && suffix != ""
    ensures EndsInAnyCase(key, suffix) <==>
      SameLetter(key[|key| - 1], suffix[|suffix| - 1]) && EndsInAnyCase(key[..|key| - 1], suffix[..|suffix| - 1])
  {
    var m, n := |suffix| - 1, |key| - 1;
    if SameLetter(key[n], suffix[m]) && EndsInAnyCase(key[..n], suffix[..m]) {
      forall i | 0 <= i < |suffix| ensures SameLetter(key[|key| - |suffix| + i], suffix[i]) {
        assert i < m ==> SameLetter(key[..n][|key[..n]| - m + i], suffix[..m][i]);
      }
    }
    if EndsInAnyCase(key, suffix) {
      assert SameLetter(key[|key| - |suffix| + m], suffix[m]);
      forall i | 0 <= i < m ensures SameLetter(key[..n][|key[..n]| - m + i], suffix[..m][i]) {
        assert SameLetter(key[|key| - |suffix| + i], suffix[i]);
      }
    }
  }

  /** The endings that make a key sensitive, spelled out. */
  predicate NamesSecret(key: string) {
    || EndsInAnyCase(key, "password") || EndsInAnyCase(key, "passwd") || EndsInAnyCase(key, "secret")
    || EndsInAnyCase(key, "token") || EndsInAnyCase(key, "apikey") || EndsInAnyCase(key, "api_key")
    || EndsInAnyCase(key, "access_token") || EndsInAnyCase(key, "refresh_token")
    || EndsInAnyCase(key, "authorization") || EndsInAnyCase(key, "auth")
    || EndsInAnyCase(key, "card_cvc") || EndsInAnyCase(key, "card_cvv") || EndsInAnyCase(key, "cvv")
    || EndsInAnyCase(key, "secret_key") || EndsInAnyCase(key, "private_key")
    || EndsInAnyCase(key, "webhook_secret") || EndsInAnyCase(key, "stripe_secret_key")
    || EndsInAnyCase(key, "stripe_publishable_key") || EndsInAnyCase(key, "google_client_secret")
    || EndsInAnyCase(key, "csrfmiddlewaretoken")
  }

  lemma PlainSuffixes(suffixes: seq<string>)
    requires suffixes == SENSITIVE_SUFFIXES
    ensures forall i :: 0 <= i < |suffixes| ==> PlainLower(suffixes[i])
  {
  }

  lemma SomeSuffixIff(suffixes: seq<string>, key: string)
    requires suffixes == SENSITIVE_SUFFIXES
    ensures NamesSecret(key) <==> exists i :: 0 <= i < |suffixes| && EndsInAnyCase(key, suffixes[i])
  {
    assert |suffixes| == 20;
    if NamesSecret(key) {
      assert
        || EndsInAnyCase(key, suffixes[0]) || EndsInAnyCase(key, suffixes[1]) || EndsInAnyCase(key, suffixes[2])
        || EndsInAnyCase(key, suffixes[3]) || EndsInAnyCase(key, suffixes[4]) || EndsInAnyCase(key, suffixes[5])
        || EndsInAnyCase(key, suffixes[6]) || EndsInAnyCase(key, suffixes[7]) || EndsInAnyCase(key, suffixes[8])
        || EndsInAnyCase(key, suffixes[9]) || EndsInAnyCase(key, suffixes[10]) || EndsInAnyCase(key, suffixes[11])
        || EndsInAnyCase(key, suffixes[12]) || EndsInAnyCase(key, suffixes[13]) || EndsInAnyCase(key, suffixes[14])
        || EndsInAnyCase(key, suffixes[15]) || EndsInAnyCase(key, suffixes[16]) || EndsInAnyCase(key, suffixes[17])
        || EndsInAnyCase(key, suffixes[18]) || EndsInAnyCase(key, suffixes[19]);
    }
  }

  /** A key is sensitive exactly when it ends in one of the listed names, in any letter case. */
  lemma SensitiveIff(key: string)
    ensures IsSensitive(key) <==> NamesSecret(key)
  {
    var s := SENSITIVE_SUFFIXES;
    PlainSuffixes(s);
    SomeSuffixIff(s, key);
    forall i | 0 <= i < |s| ensures EndsWith(Lower(key), s[i]) <==> EndsInAnyCase(key, s[i]) {
      EndsWithIff(key, s[i]);
    }
  }

  /** Under a sensitive key stands "***"; the value under any other key is redacted by itself. */
  lemma ValueUnderKey(entries: seq<(string, Value)>, path: string, i: nat)
    requires i < |entries|
    ensures Redact(Dict(entries), path).Dict? && i < |Redact(Dict(entries), path).entries|
    ensures Redact(Dict(entries), path).entries[i] ==
      (entries[i].0, if NamesSecret(entries[i].0) then Text("***") else Redact(entries[i].1, ""))
  {
    var (k, x) := entries[i];
    SensitiveIff(k);
    PathNeverMatters(path, k);
    PathIsIrrelevant(x, Join(path, k));
  }

  lemma ShortIsPlain(key: string)
    requires |key| < 3
    ensures !NamesSecret(key)
  {
  }

  lemma PasswordInAnyCase(prefix: string)
    ensures NamesSecret(prefix + "PassWord")
  {
    var key := prefix + "PassWord";
    forall i | 0 <= i < 8 ensures SameLetter(key[|prefix| + i], "password"[i]) {
      assert key[|prefix| + i] == "PassWord"[i];
    }
    assert EndsInAnyCase(key, "password");
  }

  /** For example: {"id": "7", "New_PassWord": ..} keeps the id and hides the other value, at any path. */
  lemma PasswordIsMasked(prefix: string, id: string, x: Value, path: string)
    ensures Redact(Dict([("id", Text(id)), (prefix + "PassWord", x)]), path) ==
      Dict([("id", Text(id)), (prefix + "PassWord", Text("***"))])
  {
    var entries := [("id", Text(id)), (prefix + "PassWord", x)];
    var r := Redact(Dict(entries), path);
    ShortIsPlain("id");
    PasswordInAnyCase(prefix);
    ValueUnderKey(entries, path, 0);
    ValueUnderKey(entries, path, 1);
    assert r.entries == [("id", Text(id)), (prefix + "PassWord", Text("***"))];
  }

  // ----------------------------------------------------- the path never matters

  lemma {:induction false} LowerConcat(s: string, t: string)
    ensures Lower(s + t) == Lower(s) + Lower(t)
  {
    if s == "" {
      assert s + t == t;
    } else {
      assert (s + t)[1..] == s[1..] + t;
      LowerConcat(s[1..], t);
    }
  }

  /** A suffix without a dot cannot reach back over one. */
  lemma SuffixStopsAtDot(before: string, after: string, suffix: string)
    requires '.' !in suffix
    ensures EndsWith(before + "." + after, suffix) <==> EndsWith(after, suffix)
  {
    var whole := before + "." + after;
    if |suffix| <= |after| {
      assert whole[|whole| - |suffix|..] == after[|after| - |suffix|..];
    } else if |suffix| <= |whole| {
      var end := whole[|whole| - |suffix|..];
      assert end[|suffix| - |after| - 1] == '.';
      assert '.' in end;
    }
  }

  lemma PathNeverMatters(path: string, key: string)
    ensures IsSensitive(Join(path, key)) <==> IsSensitive(key)
  {
    if path != "" {
      var low, s := Lower(key), SENSITIVE_SUFFIXES;
      LowerConcat(path + ".", key);
      LowerConcat(path, ".");
      assert Lower(".") == ".";
      assert Lower(Join(path, key)) == Lower(path) + "." + low;
      PlainSuffixes(s);
      forall i | 0 <= i < |s| ensures EndsWith(Lower(Join(path, key)), s[i]) <==> EndsWith(low, s[i]) {
        SuffixStopsAtDot(Lower(path), low, s[i]);
      }
    }
  }

  // ------------------------------------------------- what redaction leaves and hides

  /** A value without its children: its kind, keys, length and leaf. */
  datatype Head =
    | TextHead(text: string)
    | OtherHead(id: int)
    | DictHead(keys: seq<string>)
    | ListHead(length: nat)
    | TupleHead(length: nat)

  function HeadOf(v: Value): Head {
    match v
    case Text(text) => TextHead(text)
    case Other(id) => OtherHead(id)
    case Dict(entries) => DictHead(seq(|entries|, i requires 0 <= i < |entries| => entries[i].0))
    case List(items) => ListHead(|items|)
    case Tuple(items) => TupleHead(|items|)
  }

  function Children(v: Value): nat {
    match v
    case Dict(entries) => |entries|
    case List(items) => |items|
    case Tuple(items) => |items|
    case _ => 0
  }

  function Child(v: Value, i: nat): (c: Value)
    requires i < Children(v)
    ensures c < v
  {
    match v
    case Dict(entries) => assert entries[i] < v; entries[i].1
    case List(items) => items[i]
    case Tuple(items) => items[i]
  }

  /** The i-th child of v sits under a sensitive key. */
  predicate HidesChild(v: Value, i: nat)
    requires i < Children(v)
  {
    v.Dict? && IsSensitive(v.entries[i].0)
  }

  /** The value at a position, a sequence of child numbers from the top. */
  function At(v: Value, position: seq<nat>): Option<Value> {
    if position == [] then Some(v)
    else if position[0] < Children(v) then At(Child(v, position[0]), position[1..])
    else None
  }

  /** The sensitive key nearest the top on the way to a position: the position of the value under it. */
  function Hidden(v: Value, position: seq<nat>): Option<seq<nat>> {
    if position == [] || position[0] >= Children(v) then None
    else if HidesChild(v, position[0]) then Some([position[0]])
    else
      var below := Hidden(Child(v, position[0]), position[1..]);
      if below.Some? then Some([position[0]] + below.value) else None
  }

  lemma RedactHead(v: Value, path: string)
    ensures HeadOf(Redact(v, path)) == HeadOf(v) && Children(Redact(v, path)) == Children(v)
  {
  }

  lemma RedactChild(v: Value, path: string, i: nat) returns (below: string)
    requires i < Children(v)
    ensures i < Children(Redact(v, path))
    ensures Child(Redact(v, path), i) == if HidesChild(v, i) then MASK else Redact(Child(v, i), below)
  {
    RedactHead(v, path);
    below := path;
    if v.Dict? {
      PathNeverMatters(path, v.entries[i].0);
      below := Join(path, v.entries[i].0);
    }
  }

  /**
   For every nested value, every position in it and every path it is redacted under: a
   position below no sensitive key keeps its kind, keys, length and leaf; a value right
   under a sensitive key becomes the mask, and nothing else remains below it.
   */
  lemma {:induction false} RedactAt(v: Value, path: string, position: seq<nat>)
    ensures var hidden, r := Hidden(v, position), Redact(v, path);
      && (hidden.None? ==>
            && At(r, position).Some? == At(v, position).Some?
            && (At(v, position).Some? ==> HeadOf(At(r, position).value) == HeadOf(At(v, position).value)))
      && (hidden.Some? ==>
            && hidden.value <= position && At(r, hidden.value) == Some(MASK)
            && (hidden.value != position ==> At(r, position).None?))
    decreases |position|
  {
    RedactHead(v, path);
    if position != [] && position[0] < Children(v) {
      var i, rest := position[0], position[1..];
      var below := RedactChild(v, path, i);
      assert position == [i] + rest;
      if HidesChild(v, i) {
        assert At(Redact(v, path), [i]) == Some(MASK);
        assert rest != [] ==> At(MASK, rest).None?;
      } else {
        RedactAt(Child(v, i), below, rest);
        var hidden := Hidden(Child(v, i), rest);
        if hidden.Some? {
          assert ([i] + hidden.value)[1..] == hidden.value;
        }
      }
    }
  }

  /** The path a value is redacted under changes nothing. */
  lemma {:induction false} PathIsIrrelevant(v: Value, path: string)
    ensures Redact(v, path) == Redact(v, "")
    decreases v
  {
    var r, s := Redact(v, path), Redact(v, "");
    match v
    case Dict(entries) =>
      forall i | 0 <= i < |entries| ensures r.entries[i] == s.entries[i] {
        var (k, x) := entries[i];
        assert entries[i] < v;
        PathNeverMatters(path, k);
        PathNeverMatters("", k);
        PathIsIrrelevant(x, Join(path, k));
        PathIsIrrelevant(x, Join("", k));
      }
      assert r.entries == s.entries;
    case List(items) =>
      forall i | 0 <= i < |items| ensures r.items[i] == s.items[i] {
        PathIsIrrelevant(items[i], path);
      }
      assert r.items == s.items;
    case Tuple(items) =>
      forall i | 0 <= i < |items| ensures r.items[i] == s.items[i] {
        PathIsIrrelevant(items[i], path);
      }
      assert r.items == s.items;
    case _ =>
  }

  /** Every value under a sensitive key, at any depth, is the mask. */
  predicate Masked(v: Value)
    decreases v
  {
    forall i | 0 <= i < Children(v) :: if HidesChild(v, i) then Child(v, i) == MASK else Masked(Child(v, i))
  }

  lemma {:induction false} RedactMasks(v: Value, path: string)
    ensures Masked(Redact(v, path))
    decreases v
  {
    var r := Redact(v, path);
    RedactHead(v, path);
    forall i | 0 <= i < Children(r)
      ensures if HidesChild(r, i) then Child(r, i) == MASK else Masked(Child(r, i))
    {
      var below := RedactChild(v, path, i);
      assert v.Dict? ==> HeadOf(r).keys[i] == HeadOf(v).keys[i];
      if !HidesChild(v, i) {
        RedactMasks(Child(v, i), below);
      }
    }
  }

  lemma {:induction false} MaskedIsLeft(v: Value, path: string)
    requires Masked(v)
    ensures Redact(v, path) == v
    decreases v
  {
    var r := Redact(v, path);
    RedactHead(v, path);
    forall i | 0 <= i < Children(v) ensures Child(r, i) == Child(v, i) {
      var below := RedactChild(v, path, i);
      if !HidesChild(v, i) {
        MaskedIsLeft(Child(v, i), below);
      }
    }
    SameChildren(r, v);
  }

  lemma SameChildren(v: Value, w: Value)
    requires HeadOf(v) == HeadOf(w) && Children(v) == Children(w)
    requires forall i :: 0 <= i < Children(v) ==> Child(v, i) == Child(w, i)
    ensures v == w
  {
    match v
    case Dict(entries) =>
      forall i | 0 <= i < |entries| ensures entries[i] == w.entries[i] {
        assert Child(v, i) == Child(w, i);
        assert HeadOf(v).keys[i] == HeadOf(w).keys[i];
      }
      assert entries == w.entries;
    case List(items) =>
      assert forall i :: 0 <= i < |items| ==> items[i] == Child(v, i) == Child(w, i) == w.items[i];
      assert items == w.items;
    case Tuple(items) =>
      assert forall i :: 0 <= i < |items| ==> items[i] == Child(v, i) == Child(w, i) == w.items[i];
      assert items == w.items;
    case _ =>
  }

  /** Redacting again, under any path, changes nothing; a value is left alone exactly when it is masked. */
  lemma RedactIsIdempotent(v: Value, path: string, again: string)
    ensures Redact(Redact(v, path), again) == Redact(v, path)
    ensures Redact(v, path) == v <==> Masked(v)
  {
    RedactMasks(v, path);
    MaskedIsLeft(Redact(v, path), again);
    if Masked(v) {
      MaskedIsLeft(v, path);
    }
  }

  // ------------------------------------------------------------ the JSON formatter

  const RESERVED: seq<string> := [
    "name", "msg", "args", "levelname", "levelno", "pathname", "filename",
    "module", "exc_info", "exc_text", "stack_info", "lineno", "funcName",
    "created", "msecs", "relativeCreated", "thread", "threadName",
    "processName", "process", "taskName", "message", "asctime"
  ]

  const UNSERIALIZABLE: Value := Text("<non-serializable>")

  function Keys(payload: seq<(string, Value)>): seq<string> {
    seq(|payload|, i requires 0 <= i < |payload| => payload[i].0)
  }

  predicate Promoted(standard: seq<string>, key: string) {
    !(key in standard || key in RESERVED || (key != "" && key[0] == '_') || key == "request_id")
  }

  /** Which attributes of a record are written out besides the standard fields. */
  lemma PromotedIff(standard: seq<string>, key: string)
    ensures Promoted(standard, key) <==>
      && key !in standard && key != "request_id" && (key == "" || key[0] != '_')
      && key != "name" && key != "msg" && key != "args" && key != "levelname" && key != "levelno"
      && key != "pathname" && key != "filename" && key != "module" && key != "exc_info" && key != "exc_text"
      && key != "stack_info" && key != "lineno" && key != "funcName" && key != "created" && key != "msecs"
      && key != "relativeCreated" && key != "thread" && key != "threadName" && key != "processName"
      && key != "process" && key != "taskName" && key != "message" && key != "asctime"
  {
  }

  /** What is written for a promoted attribute, in the listed names' own terms. */
  lemma DumpOneIs(key: string, x: Value, dumps: Value -> bool)
    ensures DumpOne((key, x), dumps) ==
      if NamesSecret(key) then Text("***")
      else if dumps(Redact(x, "")) then Redact(x, "") else Text("<non-serializable>")
  {
    SensitiveIff(key);
  }

  /** What redact makes of extras, with every value that does not dump as JSON replaced. */
  ghost function Dumped(extras: seq<(string, Value)>, dumps: Value -> bool): (r: seq<(string, Value)>)
    ensures |r| == |extras|
    ensures forall i :: 0 <= i < |r| ==> r[i].0 == extras[i].0
  {
    RedactHead(Dict(extras), "");
    var redacted := Redact(Dict(extras), "").entries;
    seq(|extras|, i requires 0 <= i < |extras| =>
      (extras[i].0, if IsSensitive(extras[i].0) || dumps(redacted[i].1) then redacted[i].1 else UNSERIALIZABLE))
  }

  /** What the formatter writes for one extra. */
  function DumpOne(e: (string, Value), dumps: Value -> bool): Value {
    if IsSensitive(e.0) then MASK
    else if dumps(Redact(e.1, "")) then Redact(e.1, "") else UNSERIALIZABLE
  }

  lemma DumpedAt(extras: seq<(string, Value)>, dumps: Value -> bool, i: nat)
    requires i < |extras|
    ensures Dumped(extras, dumps)[i] == (extras[i].0, DumpOne(extras[i], dumps))
  {
    var (k, x) := extras[i];
    assert Join("", k) == k;
    PathIsIrrelevant(x, k);
    RedactHead(Dict(extras), "");
    assert Redact(Dict(extras), "").entries[i] == (k, if IsSensitive(k) then MASK else Redact(x, k));
  }

  lemma DumpedGrows(extras: seq<(string, Value)>, e: (string, Value), dumps: Value -> bool)
    ensures Dumped(extras + [e], dumps) == Dumped(extras, dumps) + [(e.0, DumpOne(e, dumps))]
  {
    var more := extras + [e];
    forall i | 0 <= i < |more|
      ensures Dumped(more, dumps)[i] == (Dumped(extras, dumps) + [(e.0, DumpOne(e, dumps))])[i]
    {
      DumpedAt(more, dumps, i);
      if i < |extras| {
        DumpedAt(extras, dumps, i);
      }
    }
  }

  /** Only earlier extras were added, and none has the name of the i-th. */
  lemma NameIsNew(standard: seq<(string, Value)>, extras: seq<(string, Value)>, kept: seq<(string, Value)>,
      dumps: Value -> bool, i: nat)
    requires Distinct(Keys(extras)) && i < |extras| && forall e :: e in kept ==> e in extras[..i]
    ensures (extras[i].0 in Keys(standard + Dumped(kept, dumps))) <==> (extras[i].0 in Keys(standard))
  {
    var payload, key := standard + Dumped(kept, dumps), extras[i].0;
    forall j | 0 <= j < |kept| ensures kept[j].0 != key {
      assert kept[j] in extras[..i];
      var n :| 0 <= n < i && extras[n] == kept[j];
      assert Keys(extras)[n] != Keys(extras)[i];
    }
    assert forall j :: 0 <= j < |standard| ==> Keys(payload)[j] == Keys(standard)[j];
    assert forall j :: |standard| <= j < |payload| ==> Keys(payload)[j] == kept[j - |standard|].0;
    if j :| 0 <= j < |standard| && Keys(standard)[j] == key {
      assert Keys(payload)[j] == key;
    }
  }

  ghost function Chosen(standard: seq<(string, Value)>, extras: seq<(string, Value)>): seq<(string, Value)> {
    Keep(extras, (e: (string, Value)) => Promoted(Keys(standard), e.0))
  }

  lemma ChosenGrows(standard: seq<(string, Value)>, extras: seq<(string, Value)>, dumps: Value -> bool, i: nat)
    requires i < |extras|
    ensures Dumped(Chosen(standard, extras[..i + 1]), dumps) == Dumped(Chosen(standard, extras[..i]), dumps) +
              (if Promoted(Keys(standard), extras[i].0) then [(extras[i].0, DumpOne(extras[i], dumps))] else [])
  {
    assert extras[..i + 1][..i] == extras[..i];
    DumpedGrows(Chosen(standard, extras[..i]), extras[i], dumps);
  }

  /**
   The loop that promotes a record's attributes, whose names are distinct: masking top-level
   names here and nested ones in redact is one redaction of all promoted extras together.
   */
  method PromoteExtras(standard: seq<(string, Value)>, extras: seq<(string, Value)>, dumps: Value -> bool)
    returns (payload: seq<(string, Value)>)
    requires Distinct(Keys(extras))
    ensures payload == standard + Dumped(Chosen(standard, extras), dumps)
  {
    payload := standard;
    for i := 0 to |extras|
      invariant payload == standard + Dumped(Chosen(standard, extras[..i]), dumps)
    {
      NameIsNew(standard, extras, Chosen(standard, extras[..i]), dumps, i);
      ChosenGrows(standard, extras, dumps, i);
      payload := PromoteOne(payload, standard, extras[i], dumps);
    }
    assert extras[..|extras|] == extras;
  }

  method PromoteOne(payload: seq<(string, Value)>, ghost standard: seq<(string, Value)>, e: (string, Value), dumps: Value -> bool)
    returns (next: seq<(string, Value)>)
    requires (e.0 in Keys(payload)) <==> (e.0 in Keys(standard))
    ensures next == payload + (if Promoted(Keys(standard), e.0) then [(e.0, DumpOne(e, dumps))] else [])
  {
    var (key, value) := e;
    next := payload;
    if !(key in Keys(payload) || key in RESERVED || (key != "" && key[0] == '_') || key == "request_id") {
      if IsSensitive(key) {
        next := next + [(key, MASK)];
      } else {
        var redacted := Redact(value, "");
        next := next + [(key, if dumps(redacted) then redacted else UNSERIALIZABLE)];
      }
    }
  }
}
