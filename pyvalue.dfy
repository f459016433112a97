/** Python values as they appear in metadata dictionaries and in decoded JSON
    replies: `None`, booleans, integers, floats, strings, lists and
    string-keyed dictionaries. A dictionary is its list of entries in insertion order, which
    is the order `dict.items()`, `str(d)` and `json` all observe. */
module PyValue {
  import opened Wrappers
  import opened PyStr

  datatype Value =
    | PyNone
    | Bool(b: bool)
    | Int(i: int)
      /** A float: its value, and the text `repr` shows for it (the shortest
          decimal that reads back as the same double, taken as given). */
    | Float(f: real, text: string)
    | Str(s: string)
    | List(items: seq<Value>)
    | Dict(entries: seq<(string, Value)>)

  /** The entries of a dictionary, in insertion order. */
  type Entries = seq<(string, Value)>

  /** A value a vector-store metadata field accepts as it is. */
  predicate IsScalar(v: Value) {
    v.PyNone? || v.Bool? || v.Int? || v.Float? || v.Str?
  }

  /** Python truthiness (`if v:`). */
  predicate Truthy(v: Value) {
    match v
    case PyNone => false
    case Bool(b) => b
    case Int(i) => i != 0
    case Float(f, _) => f != 0.0
    case Str(s) => s != []
    case List(items) => items != []
    case Dict(entries) => entries != []
  }

  function Keys(d: Entries): seq<string> {
    if d == [] then [] else [d[0].0] + Keys(d[1..])
  }

  /** What every real dictionary satisfies: no key twice. */
  predicate UniqueKeys(d: Entries) {
    forall i, j :: 0 <= i < j < |d| ==> d[i].0 != d[j].0
  }

  /** `d.get(k)`, with `None` for a missing key. */
  function Get(d: Entries, k: string): (r: Option<Value>)
    ensures r.Some? <==> k in Keys(d)
    ensures r.Some? ==> (k, r.value) in d
  {
    if d == [] then None
    else if d[0].0 == k then Some(d[0].1)
    else Get(d[1..], k)
  }

  /** The first entry with a key is the one `get` finds. */
  lemma {:induction false} GetAt(d: Entries, i: nat, k: string)
    requires i < |d| && d[i].0 == k
    requires forall j :: 0 <= j < i ==> d[j].0 != k
    ensures Get(d, k) == Some(d[i].1)
    decreases i
  {
    if i > 0 {
      GetAt(d[1..], i - 1, k);
    }
  }

  /** A key the front entries lack is looked up in the rest. */
  lemma {:induction false} GetAppend(a: Entries, b: Entries, k: string)
    requires k !in Keys(a)
    ensures Get(a + b, k) == Get(b, k)
  {
    if a != [] {
      assert (a + b)[1..] == a[1..] + b;
      GetAppend(a[1..], b, k);
    } else {
      assert a + b == b;
    }
  }

  /** `d.get(k, default)`. */
  function GetOr(d: Entries, k: string, default: Value): Value {
    match Get(d, k)
    case Some(v) => v
    case None => default
  }

  /** `d[k] = v`: the value of a present key is replaced where it stands, a new
      key goes at the end. */
  function Put(d: Entries, k: string, v: Value): (r: Entries)
    ensures Get(r, k) == Some(v)
  {
    if d == [] then [(k, v)]
    else if d[0].0 == k then [(k, v)] + d[1..]
    else [d[0]] + Put(d[1..], k, v)
  }

  /** Assigning a present key keeps the key order; a new key is appended. */
  lemma {:induction false} PutKeys(d: Entries, k: string, v: Value)
    ensures Keys(Put(d, k, v)) == if k in Keys(d) then Keys(d) else Keys(d) + [k]
  {
    if d != [] && d[0].0 != k {
      PutKeys(d[1..], k, v);
      var r := Put(d, k, v);
      assert r == [d[0]] + Put(d[1..], k, v);
      assert r[1..] == Put(d[1..], k, v);
      assert Keys(d) == [d[0].0] + Keys(d[1..]);
      assert Keys(r) == [d[0].0] + Keys(Put(d[1..], k, v));
    } else if d != [] {
      var r := Put(d, k, v);
      assert r[1..] == d[1..];
    }
  }

  /** Assigning a key the dictionary lacks appends one entry. */
  lemma {:induction false} PutNew(d: Entries, k: string, v: Value)
    requires k !in Keys(d)
    ensures Put(d, k, v) == d + [(k, v)]
  {
    if d != [] {
      PutNew(d[1..], k, v);
      assert d == [d[0]] + d[1..];
    }
  }

  lemma {:induction false} KeysIndex(d: Entries)
    ensures |Keys(d)| == |d|
    ensures forall i :: 0 <= i < |d| ==> Keys(d)[i] == d[i].0
  {
    if d != [] {
      KeysIndex(d[1..]);
    }
  }

  /** Every value of the dictionary is a scalar. */
  predicate AllScalar(d: Entries) {
    forall i :: 0 <= i < |d| ==> IsScalar(d[i].1)
  }

  lemma {:induction false} PutScalar(d: Entries, k: string, v: Value)
    requires AllScalar(d) && IsScalar(v)
    ensures AllScalar(Put(d, k, v))
  {
    if d != [] && d[0].0 != k {
      PutScalar(d[1..], k, v);
    }
  }

  /** Assigning one key leaves every other key's value as it was. */
  lemma {:induction false} PutOther(d: Entries, k: string, v: Value, k': string)
    requires k' != k
    ensures Get(Put(d, k, v), k') == Get(d, k')
  {
    if d != [] && d[0].0 != k {
      PutOther(d[1..], k, v, k');
    }
  }

  // ---------------------------------------------------------------------
  // repr of a string
  // ---------------------------------------------------------------------

  /** The quote `repr` puts around a string: `"` when the string holds a `'`
      and no `"`, otherwise `'`. */
  function ReprQuote(s: string): (q: char)
    ensures q == '"' || q == '\''
    ensures q == '"' <==> '\'' in s && '"' !in s
  {
    if '\'' in s && '"' !in s then '"' else '\''
  }

  function HexDigit(n: nat): (c: char)
    requires n < 16
    ensures ('0' <= c <= '9') || ('a' <= c <= 'f')
  {
    if n < 10 then ('0' as int + n) as char else ('a' as int + n - 10) as char
  }

  function HexValue(c: char): (v: nat)
    ensures v < 16
  {
    if '0' <= c <= '9' then c as int - '0' as int
    else if 'a' <= c <= 'f' then c as int - 'a' as int + 10
    else 0
  }

  lemma HexRoundTrip(n: nat)
    requires n < 16
    ensures HexValue(HexDigit(n)) == n
  {
  }

  /** The characters `repr` writes as `\xhh`: the C0 controls other than
      tab and the line breaks, `DEL`, the C1 controls, the no-break space
      and the soft hyphen. */
  predicate HexEscaped(c: char) {
    c < ' ' || (0x7f <= c as int <= 0xa0) || c as int == 0xad
  }

  /** How `repr` writes one character inside quotes `q`. */
  function ReprChar(c: char, q: char): (r: string)
    ensures r != [] && (r[0] == '\\' <==> r != [c])
  {
    if c == q || c == '\\' then ['\\', c]
    else if c == '\t' then "\\t"
    else if c == '\n' then "\\n"
    else if c == '\r' then "\\r"
    else if HexEscaped(c) then "\\x" + [HexDigit(c as int / 16), HexDigit(c as int % 16)]
    else [c]
  }

  function ReprBody(s: string, q: char): string {
    if s == [] then [] else ReprChar(s[0], q) + ReprBody(s[1..], q)
  }

  /** `repr(s)` for a string: the escaped characters between quotes. */
  function ReprStr(s: string): (r: string)
    ensures |r| >= |s| + 2
    ensures r[0] == r[|r| - 1] == ReprQuote(s)
  {
    ReprBodyLength(s, ReprQuote(s));
    [ReprQuote(s)] + ReprBody(s, ReprQuote(s)) + [ReprQuote(s)]
  }

  lemma {:induction false} ReprBodyLength(s: string, q: char)
    ensures |ReprBody(s, q)| >= |s|
  {
    if s != [] {
      ReprBodyLength(s[1..], q);
    }
  }

  /** Reading the inside of a `repr` back: a backslash and `t`, `n`, `r`
      stand for the tab and the line breaks, a backslash and `x` with two hex
      digits for the character with that code, a backslash and any other
      character for that character. */
  function ReadBack(t: string): string
    decreases |t|
  {
    if t == [] then []
    else if t[0] == '\\' && |t| >= 2 then
      if t[1] == 't' then "\t" + ReadBack(t[2..])
      else if t[1] == 'n' then "\n" + ReadBack(t[2..])
      else if t[1] == 'r' then "\r" + ReadBack(t[2..])
      else if t[1] == 'x' && |t| >= 4 then
        [(16 * HexValue(t[2]) + HexValue(t[3])) as char] + ReadBack(t[4..])
      else [t[1]] + ReadBack(t[2..])
    else [t[0]] + ReadBack(t[1..])
  }

  /** One escaped character reads back as itself. */
  lemma ReadBackChar(c: char, q: char, rest: string)
    requires q == '"' || q == '\''
    ensures ReadBack(ReprChar(c, q) + rest) == [c] + ReadBack(rest)
  {
    var e := ReprChar(c, q);
    if HexEscaped(c) && !(c == q || c == '\\' || c == '\t' || c == '\n' || c == '\r') {
      var n := c as int;
      HexRoundTrip(n / 16);
      HexRoundTrip(n % 16);
      assert e == "\\x" + [HexDigit(n / 16), HexDigit(n % 16)];
      assert (e + rest)[4..] == rest;
      assert 16 * (n / 16) + n % 16 == n;
    } else if e == [c] {
      assert (e + rest)[1..] == rest;
    } else {
      assert (e + rest)[2..] == rest;
    }
  }

  /** `repr` loses nothing: the inside of `repr(s)` reads back as `s`. */
  lemma {:induction false} ReadBackRepr(s: string, q: char)
    requires q == '"' || q == '\''
    ensures ReadBack(ReprBody(s, q)) == s
  {
    if s != [] {
      assert ReprBody(s, q) == ReprChar(s[0], q) + ReprBody(s[1..], q);
      ReadBackChar(s[0], q, ReprBody(s[1..], q));
      ReadBackRepr(s[1..], q);
      assert s == [s[0]] + s[1..];
    }
  }

  /** The text between the quotes of `repr(s)` reads back as `s`. */
  lemma ReprStrRoundTrip(s: string)
    ensures var r := ReprStr(s); ReadBack(r[1..|r| - 1]) == s
  {
    var q := ReprQuote(s);
    var r := ReprStr(s);
    assert r[1..|r| - 1] == ReprBody(s, q);
    ReadBackRepr(s, q);
  }

  /** Printable ASCII text without quotes or backslashes is shown as it is,
      between single quotes. */
  lemma {:induction false} ReprStrPlain(s: string)
    requires forall i :: 0 <= i < |s| ==> ' ' <= s[i] <= '~' && s[i] != '\'' && s[i] != '\\'
    ensures ReprStr(s) == "'" + s + "'"
  {
    assert '\'' !in s;
    PlainBody(s);
  }

  lemma {:induction false} PlainBody(s: string)
    requires forall i :: 0 <= i < |s| ==> ' ' <= s[i] <= '~' && s[i] != '\'' && s[i] != '\\'
    ensures ReprBody(s, '\'') == s
  {
    if s != [] {
      PlainBody(s[1..]);
    }
  }

  /** `repr(v)`. */
  function Repr(v: Value): string
    decreases v
  {
    match v
    case PyNone => "None"
    case Bool(b) => if b then "True" else "False"
    case Int(i) => IntToString(i)
    case Float(_, text) => text
    case Str(s) => ReprStr(s)
    case List(items) =>
      "[" + Join(", ", seq(|items|, n requires 0 <= n < |items| => Repr(items[n]))) + "]"
    case Dict(entries) =>
      "{" + Join(", ", seq(|entries|, n requires 0 <= n < |entries| =>
        ReprStr(entries[n].0) + ": " + Repr(entries[n].1))) + "}"
  }

  /** `str(v)`: a string is itself, anything else its `repr`. */
  function StrOf(v: Value): string {
    if v.Str? then v.s else Repr(v)
  }

  /** `[str(x) for x in items]`. */
  function StrItems(items: seq<Value>): seq<string> {
    seq(|items|, n requires 0 <= n < |items| => StrOf(items[n]))
  }

  // ---------------------------------------------------------------------
  // Python operations on decoded JSON, with the exception each one raises
  // on a value of the wrong type (its class name is the error)
  // ---------------------------------------------------------------------

  /** `k in v` for a string `k`: a key of a dictionary, an item of a list, a
      substring of a string. */
  function In(k: string, v: Value): (r: Result<bool, string>)
    ensures v.Dict? ==> r == Ok(k in Keys(v.entries))
    ensures r.Err? <==> !(v.Dict? || v.List? || v.Str?)
  {
    match v
    case Dict(entries) => Ok(k in Keys(entries))
    case List(items) => Ok(Str(k) in items)
    case Str(s) => Ok(Contains(s, k))
    case _ => Err("TypeError")
  }

  /** `v[k]` for a string `k`: only a dictionary holding the key answers. */
  function Subscript(v: Value, k: string): (r: Result<Value, string>)
    ensures r.Ok? <==> v.Dict? && k in Keys(v.entries)
    ensures r.Ok? ==> (k, r.value) in v.entries
  {
    match v
    case Dict(entries) =>
      (match Get(entries, k)
       case Some(x) => Ok(x)
       case None => Err("KeyError: " + ReprStr(k)))
    case _ => Err("TypeError")
  }

  /** `v.get(k, default)`: a method of dictionaries only. */
  function DictGet(v: Value, k: string, default: Value): (r: Result<Value, string>)
    ensures r.Ok? <==> v.Dict?
    ensures v.Dict? && k !in Keys(v.entries) ==> r == Ok(default)
    ensures v.Dict? && k in Keys(v.entries) ==> (k, r.value) in v.entries
  {
    if v.Dict? then Ok(GetOr(v.entries, k, default)) else Err("AttributeError")
  }

  /** The items `for x in v` visits: a list's items, a dictionary's keys, a
      string's characters. */
  function Iterate(v: Value): (r: Result<seq<Value>, string>)
    ensures v.List? ==> r == Ok(v.items)
    ensures r.Ok? ==> (r.value == [] <==> !Truthy(v))
    ensures r.Err? <==> !(v.Dict? || v.List? || v.Str?)
  {
    match v
    case List(items) => Ok(items)
    case Dict(entries) => Ok(seq(|entries|, i requires 0 <= i < |entries| => Str(entries[i].0)))
    case Str(s) => Ok(seq(|s|, i requires 0 <= i < |s| => Str([s[i]])))
    case _ => Err("TypeError")
  }

  /** `v[0]`: the first item of a list, the first character of a string. The
      keys of a decoded dictionary are strings, so `0` is never one of them. */
  function First(v: Value): (r: Result<Value, string>)
    ensures v.List? && v.items != [] ==> r == Ok(v.items[0])
    ensures r.Ok? <==> (v.List? || v.Str?) && Truthy(v)
  {
    match v
    case List(items) => if items != [] then Ok(items[0]) else Err("IndexError")
    case Str(s) => if s != [] then Ok(Str([s[0]])) else Err("IndexError")
    case Dict(_) => Err("KeyError: 0")
    case _ => Err("TypeError")
  }
}
