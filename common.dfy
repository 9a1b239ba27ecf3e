/** Values, errors and the few Python string operations the pipeline relies on. */
module Common {

  datatype Option<+T> = None | Some(value: T)

  /** The Python exception classes the model distinguishes. */
  datatype Error =
    | ValueError(message: string)
    | TypeError(message: string)
    | IndexError
    | ZeroDivisionError
    | ValidationError(model: string)
    | BackendError(message: string)
    | StoreError

  datatype Result<+T> = Success(value: T) | Failure(error: Error)

  function Min(a: int, b: int): int { if a <= b then a else b }
  function Max(a: int, b: int): int { if a >= b then a else b }

  /** Python truthiness of an optional string: None and "" are false. */
  predicate Truthy(s: Option<string>) { s.Some? && s.value != "" }

  /** `x or default`: an absent or zero integer takes the default. */
  function OrDefault(x: Option<int>, default: int): (r: int)
    ensures r == default || (x.Some? && r == x.value && r != 0)
    ensures x.Some? && x.value != 0 ==> r == x.value
  {
    match x
    case Some(v) => if v != 0 then v else default
    case None => default
  }

  // ---------------------------------------------------------------------------
  // Whitespace and str.strip()

  /** The characters for which Python's str.isspace() holds. */
  predicate IsSpace(c: char) {
    var k := c as int;
    k == 32 || 9 <= k <= 13 || 28 <= k <= 31 || k == 0x85 || k == 0xA0 || k == 0x1680
    || 0x2000 <= k <= 0x200A || k == 0x2028 || k == 0x2029 || k == 0x202F || k == 0x205F
    || k == 0x3000
  }

  predicate Blank(s: string) {
    forall i | 0 <= i < |s| :: IsSpace(s[i])
  }

  /** str.lstrip() */
  function TrimLeft(s: string): string {
    if s != [] && IsSpace(s[0]) then TrimLeft(s[1..]) else s
  }

  /** str.rstrip() */
  function TrimRight(s: string): string {
    if s != [] && IsSpace(s[|s| - 1]) then TrimRight(s[..|s| - 1]) else s
  }

  /** str.strip() */
  function Strip(s: string): string {
    TrimRight(TrimLeft(s))
  }

  /** lstrip removes exactly the leading whitespace. */
  lemma {:induction false} TrimLeftFacts(s: string)
    ensures var r := TrimLeft(s);
      && |r| <= |s| && r == s[|s| - |r|..]
      && Blank(s[..|s| - |r|])
      && (r != [] ==> !IsSpace(r[0]))
      && (r == [] <==> Blank(s))
  {
    if s != [] && IsSpace(s[0]) {
      TrimLeftFacts(s[1..]);
      var r := TrimLeft(s[1..]);
      assert s[..|s| - |r|] == [s[0]] + s[1..][..|s| - 1 - |r|];
      assert Blank(s) ==> Blank(s[1..]) by {
        if Blank(s) {
          assert forall i | 0 <= i < |s| - 1 :: s[1..][i] == s[i + 1];
        }
      }
    }
  }

  /** rstrip removes exactly the trailing whitespace. */
  lemma {:induction false} TrimRightFacts(s: string)
    ensures var r := TrimRight(s);
      && |r| <= |s| && r == s[..|r|]
      && Blank(s[|r|..])
      && (r != [] ==> !IsSpace(r[|r| - 1]))
      && (r == [] <==> Blank(s))
  {
    if s != [] && IsSpace(s[|s| - 1]) {
      TrimRightFacts(s[..|s| - 1]);
      var r := TrimRight(s[..|s| - 1]);
      assert s[|r|..] == s[..|s| - 1][|r|..] + [s[|s| - 1]];
    }
  }

  /** The number of leading whitespace characters. */
  function Leading(s: string): nat {
    TrimLeftFacts(s);
    |s| - |TrimLeft(s)|
  }

  /** strip returns the slice of `s` between its leading and its trailing whitespace, which
      starts and ends with a character that is not whitespace; it is empty exactly when `s` is
      blank. */
  lemma StripFacts(s: string)
    ensures var r, l := Strip(s), Leading(s);
      && l + |r| <= |s| && r == s[l..l + |r|]
      && Blank(s[..l]) && Blank(s[l + |r|..])
      && (r != [] ==> !IsSpace(r[0]) && !IsSpace(r[|r| - 1]))
      && (r == [] <==> Blank(s))
  {
    var t := TrimLeft(s);
    TrimLeftFacts(s);
    TrimRightFacts(t);
    var r := TrimRight(t);
    assert t[|r|..] == s[Leading(s) + |r|..];
  }

  lemma StripEmpty(s: string)
    ensures Strip(s) == [] <==> Blank(s)
  {
    StripFacts(s);
  }

  /** Stripping twice is stripping once. */
  lemma StripIdempotent(s: string)
    ensures Strip(Strip(s)) == Strip(s)
  {
    var r := Strip(s);
    StripFacts(s);
    if r != [] {
      assert TrimLeft(r) == r;
      assert TrimRight(r) == r;
    }
  }

  /** A stripped string is a piece of the original. */
  lemma StripIsSubstring(s: string)
    ensures IsSubstring(Strip(s), s)
  {
    StripFacts(s);
    var l := Leading(s);
    assert s[l..l + |Strip(s)|] == Strip(s);
  }

  // ---------------------------------------------------------------------------
  // str.rfind, str.lower, slicing

  /** str.rfind(c): the last index holding `c`, or -1. */
  function RFind(s: string, c: char): (r: int)
    ensures -1 <= r < |s|
    ensures r >= 0 ==> s[r] == c
    ensures forall k | r < k < |s| :: s[k] != c
  {
    if s == [] then -1
    else if s[|s| - 1] == c then |s| - 1
    else RFind(s[..|s| - 1], c)
  }

  /** The last occurrence is unique, so it pins down str.rfind. */
  lemma RFindAt(s: string, c: char, i: int)
    requires 0 <= i < |s| && s[i] == c
    requires forall k | i < k < |s| :: s[k] != c
    ensures RFind(s, c) == i
  {
  }

  lemma RFindAbsent(s: string, c: char)
    requires forall k | 0 <= k < |s| :: s[k] != c
    ensures RFind(s, c) == -1
  {
  }

  function LowerChar(c: char): char {
    if 'A' <= c <= 'Z' then (c as int + 32) as char else c
  }

  /** str.lower() on the ASCII letters. */
  function Lower(s: string): (r: string)
    ensures |r| == |s|
    ensures forall i | 0 <= i < |s| :: r[i] == LowerChar(s[i])
  {
    if s == [] then [] else [LowerChar(s[0])] + Lower(s[1..])
  }

  /** Lower-casing commutes with taking a suffix. */
  lemma LowerDrop(s: string, n: nat)
    requires n <= |s|
    ensures Lower(s)[n..] == Lower(s[n..])
  {
    assert forall i | 0 <= i < |s| - n :: Lower(s)[n..][i] == Lower(s[n..])[i];
  }

  /** Lower-casing twice is lower-casing once. */
  lemma LowerIdempotent(s: string)
    ensures Lower(Lower(s)) == Lower(s)
  {
    assert forall i | 0 <= i < |s| :: Lower(Lower(s))[i] == Lower(s)[i];
  }

  /** The last occurrence of a character that is not a letter is where it was before lower-casing. */
  lemma RFindLower(s: string, c: char)
    requires !('A' <= c <= 'Z') && !('a' <= c <= 'z')
    ensures RFind(Lower(s), c) == RFind(s, c)
  {
    var i := RFind(s, c);
    assert forall k | 0 <= k < |s| :: (Lower(s)[k] == c <==> s[k] == c);
    if i >= 0 {
      RFindAt(Lower(s), c, i);
    } else {
      RFindAbsent(Lower(s), c);
    }
  }

  /** s[:n] for n >= 0. */
  function Take<T>(s: seq<T>, n: nat): (r: seq<T>)
    ensures |r| == Min(n, |s|) && r == s[..|r|]
  {
    if n <= |s| then s[..n] else s
  }

  /** s[-n:] for n > 0: the last n elements, or all of them. */
  function LastN<T>(s: seq<T>, n: nat): (r: seq<T>)
    ensures |r| == Min(n, |s|) && r == s[|s| - |r|..]
  {
    if n <= |s| then s[|s| - n..] else s
  }

  lemma AppendAssociative<T>(a: seq<T>, b: seq<T>, c: seq<T>)
    ensures (a + b) + c == a + (b + c)
  {
  }

  /** sep.join(parts) */
  function Join(sep: string, parts: seq<string>): string {
    if parts == [] then ""
    else if |parts| == 1 then parts[0]
    else parts[0] + sep + Join(sep, parts[1..])
  }

  predicate IsSubstring(a: string, b: string) {
    exists i, j :: 0 <= i <= j <= |b| && b[i..j] == a
  }

  /** Every part of a join is a piece of its result. */
  lemma {:induction false} JoinContains(sep: string, parts: seq<string>, k: nat)
    requires k < |parts|
    ensures IsSubstring(parts[k], Join(sep, parts))
  {
    var j := Join(sep, parts);
    if |parts| == 1 {
      assert j[0..|j|] == parts[0];
    } else {
      var rest := Join(sep, parts[1..]);
      assert j == parts[0] + sep + rest;
      if k == 0 {
        assert j[0..|parts[0]|] == parts[0];
      } else {
        JoinContains(sep, parts[1..], k - 1);
        var a, b :| 0 <= a <= b <= |rest| && rest[a..b] == parts[1..][k - 1];
        var off := |parts[0]| + |sep|;
        assert j[off + a..off + b] == rest[a..b];
      }
    }
  }

  /** A join starts with its first part. */
  lemma {:induction false} JoinStartsWithFirst(sep: string, parts: seq<string>)
    requires parts != []
    ensures |parts[0]| <= |Join(sep, parts)| && Join(sep, parts)[..|parts[0]|] == parts[0]
  {
    if |parts| > 1 {
      var rest := Join(sep, parts[1..]);
      assert Join(sep, parts) == parts[0] + (sep + rest);
    }
  }

  /** A join is empty exactly when every part is. */
  lemma {:induction false} JoinEmpty(sep: string, parts: seq<string>)
    requires forall k | 0 <= k < |parts| :: parts[k] != ""
    ensures Join(sep, parts) == "" <==> parts == []
  {
    if parts != [] {
      JoinStartsWithFirst(sep, parts);
    }
  }

  // ---------------------------------------------------------------------------
  // Decimal digits

  function DigitChar(d: nat): (c: char)
    requires d < 10
    ensures '0' <= c <= '9'
  {
    ('0' as int + d) as char
  }

  /** str(n) for a natural number. */
  function NatToString(n: nat): (r: string)
    ensures |r| >= 1
    ensures n >= 10 ==> |r| >= 2
    ensures forall k | 0 <= k < |r| :: '0' <= r[k] <= '9'
    decreases n
  {
    if n < 10 then [DigitChar(n)] else NatToString(n / 10) + [DigitChar(n % 10)]
  }

  /** Different numbers print differently. */
  lemma {:induction false} NatToStringInjective(a: nat, b: nat)
    requires NatToString(a) == NatToString(b)
    ensures a == b
  {
    if a >= 10 && b >= 10 {
      var sa, sb := NatToString(a), NatToString(b);
      assert sa[|sa| - 1] == DigitChar(a % 10) && sb[|sb| - 1] == DigitChar(b % 10);
      assert NatToString(a / 10) == sa[..|sa| - 1] == sb[..|sb| - 1] == NatToString(b / 10);
      NatToStringInjective(a / 10, b / 10);
    }
  }

  /** str(i) for any integer. */
  function IntToString(i: int): (r: string)
    ensures r != []
    ensures forall k | 0 <= k < |r| :: r[k] == '-' || '0' <= r[k] <= '9'
  {
    if i < 0 then "-" + NatToString(-i) else NatToString(i)
  }

  predicate IsDigit(c: char) { '0' <= c <= '9' }

  predicate AllDigits(s: string) { forall k | 0 <= k < |s| :: IsDigit(s[k]) }

  /** The value of a string of decimal digits. */
  function DigitsValue(s: string): nat
    requires AllDigits(s)
  {
    if s == [] then 0 else 10 * DigitsValue(s[..|s| - 1]) + (s[|s| - 1] as int - '0' as int)
  }

  lemma {:induction false} DigitsValueOfNatToString(n: nat)
    ensures AllDigits(NatToString(n)) && DigitsValue(NatToString(n)) == n
  {
    if n >= 10 {
      var s := NatToString(n);
      assert s[..|s| - 1] == NatToString(n / 10);
      DigitsValueOfNatToString(n / 10);
    }
  }

  /** An optionally signed run of decimal digits. */
  function ParseSigned(t: string): Option<int> {
    if |t| > 1 && (t[0] == '-' || t[0] == '+') && AllDigits(t[1..]) then
      var v: int := DigitsValue(t[1..]);
      Some(if t[0] == '-' then -v else v)
    else if t != [] && AllDigits(t) then Some(DigitsValue(t))
    else None
  }

  /** int(s) as pydantic coerces a numeric string: optional surrounding whitespace and sign. */
  function ParseInt(s: string): Option<int> {
    ParseSigned(Strip(s))
  }

  // ---------------------------------------------------------------------------
  // Metadata values and conversation items

  /** A metadata value as the vector store keeps it. */
  datatype Value = VStr(s: string) | VInt(i: int) | VBool(b: bool)

  type Metadata = map<string, Value>

  /** dict.get(key, default) */
  function Get(m: Metadata, key: string, default: Value): Value {
    if key in m then m[key] else default
  }

  /** dict.get(key) */
  function GetOpt(m: Metadata, key: string): Option<Value> {
    if key in m then Some(m[key]) else None
  }

  /** str(v), as an f-string renders a metadata value. */
  function Render(v: Value): string {
    match v
    case VStr(s) => s
    case VInt(i) => IntToString(i)
    case VBool(b) => if b then "True" else "False"
  }

  /** One entry of a conversation history or a chat request: a dict of strings, or anything else. */
  datatype Item = Dict(fields: map<string, string>) | NonDict

  function Msg(role: string, content: string): Item {
    Dict(map["role" := role, "content" := content])
  }
}

/** The defaults of the application settings. */
module Config {
  const ChunkSize: int := 1000
  const ChunkOverlap: int := 200
  const MaxUploadSizeMb: int := 50
  const TopKResults: int := 5
  const DefaultLlmProvider: string := "groq"
  const GroqApiKey: string := ""
  const GroqModel: string := "gpt-oss-120b"
  const OllamaModel: string := "qwen2.5:1.7b"
  const ChromaPersistDirectory: string := "./chroma_db"
  const ChromaCollectionName: string := "dropshipping_docs"
}
