/** Values and library behaviour of Python that the PCB services rely on:
    optional values, `int()` on a float, `str()` of an integer, `uuid4().hex`,
    `str.join`, `os.path.basename` and `os.path.join`. */
module Common {

  datatype Option<T> = None | Some(value: T)
  {
    function GetOr(default: T): T
    {
      if Some? then value else default
    }
  }

  /** An outcome that is either a value or the text of the exception that
      interrupted the computation. */
  datatype Result<T> = Ok(value: T) | Err(message: string)

  function Min(a: int, b: int): int
  {
    if a <= b then a else b
  }

  // ---------------------------------------------------------------------------
  // int(x) for a float x: truncation toward zero (not floor)

  function Trunc(r: real): (n: int)
    ensures 0.0 <= r ==> 0 <= n && n as real <= r < n as real + 1.0
    ensures r < 0.0 ==> n <= 0 && n as real - 1.0 < r <= n as real
  {
    if r >= 0.0 then r.Floor else -((-r).Floor)
  }

  lemma TruncOfInteger(n: int)
    ensures Trunc(n as real) == n
  {
  }

  lemma TruncMonotonic(a: real, b: real)
    requires a <= b
    ensures Trunc(a) <= Trunc(b)
  {
  }

  // ---------------------------------------------------------------------------
  // str(n) for an int n

  function DigitChar(d: nat): char
    requires d < 10
  {
    ('0' as int + d) as char
  }

  predicate AllDigits(s: string)
  {
    forall i :: 0 <= i < |s| ==> '0' <= s[i] <= '9'
  }

  /** The number a string of decimal digits stands for, as `int(s)` reads it. */
  function DigitsValue(s: string): nat
    requires AllDigits(s)
  {
    if s == [] then 0
    else
      var init := s[..|s| - 1];
      assert AllDigits(init) by {
        forall i | 0 <= i < |init| ensures '0' <= init[i] <= '9' {
          assert init[i] == s[i];
        }
      }
      10 * DigitsValue(init) + (s[|s| - 1] as int - '0' as int)
  }

  function NatToString(n: nat): (s: string)
    ensures |s| >= 1
    ensures forall i :: 0 <= i < |s| ==> '0' <= s[i] <= '9'
  {
    if n < 10 then [DigitChar(n)] else NatToString(n / 10) + [DigitChar(n % 10)]
  }

  /** `str(n)` reads back as `n`. */
  lemma {:induction false} NatToStringValue(n: nat)
    ensures AllDigits(NatToString(n)) && DigitsValue(NatToString(n)) == n
  {
    var s := NatToString(n);
    if n >= 10 {
      NatToStringValue(n / 10);
      assert s[..|s| - 1] == NatToString(n / 10);
    }
  }

  /** Different numbers are written differently. */
  lemma NatToStringInjective(m: nat, n: nat)
    requires NatToString(m) == NatToString(n)
    ensures m == n
  {
    NatToStringValue(m);
    NatToStringValue(n);
  }

  /** `str(n)`: the digits of `n`, after a minus sign when it is negative. */
  function IntToString(n: int): (s: string)
    ensures n >= 0 ==> AllDigits(s) && DigitsValue(s) == n
    ensures n < 0 ==> |s| >= 2 && s[0] == '-' && AllDigits(s[1..]) && DigitsValue(s[1..]) == -n
  {
    if n < 0 then
      NatToStringValue(-n);
      assert ("-" + NatToString(-n))[1..] == NatToString(-n);
      "-" + NatToString(-n)
    else
      NatToStringValue(n);
      NatToString(n)
  }

  // ---------------------------------------------------------------------------
  // uuid.uuid4().hex: 32 lower-case hexadecimal digits

  const HexAlphabet: string := "0123456789abcdef"
  const UuidHexLength: nat := 32

  function Pow16(e: nat): (p: nat)
    ensures p >= 1
  {
    if e == 0 then 1 else 16 * Pow16(e - 1)
  }

  /** The hex form of the identifier the generator hands out as its `n`-th
      value: the 32 lowest hexadecimal digits of `n`, most significant first. */
  function UuidHex(n: nat): (s: string)
    ensures |s| == UuidHexLength
  {
    seq(UuidHexLength, i requires 0 <= i < UuidHexLength => HexAlphabet[(n / Pow16(UuidHexLength - 1 - i)) % 16])
  }

  /** Every character of the hex form is a hexadecimal digit. */
  lemma UuidHexInAlphabet(n: nat)
    ensures forall i :: 0 <= i < UuidHexLength ==> UuidHex(n)[i] in HexAlphabet
  {
  }

  // ---------------------------------------------------------------------------
  // sep.join(parts)

  function Join(sep: string, parts: seq<string>): (s: string)
  {
    if |parts| == 0 then ""
    else if |parts| == 1 then parts[0]
    else Join(sep, parts[..|parts| - 1]) + sep + parts[|parts| - 1]
  }

  /** Joining two non-empty lists is joining each and putting one separator between them. */
  lemma {:induction false} JoinAppend(sep: string, a: seq<string>, b: seq<string>)
    requires |a| > 0 && |b| > 0
    ensures Join(sep, a + b) == Join(sep, a) + sep + Join(sep, b)
    decreases |b|
  {
    if |b| == 1 {
      assert (a + b)[..|a + b| - 1] == a;
    } else {
      var b' := b[..|b| - 1];
      assert (a + b)[..|a + b| - 1] == a + b';
      JoinAppend(sep, a, b');
    }
  }

  /** `"".join(parts + [part])` is `"".join(parts)` followed by `part`. */
  lemma JoinEmptyAppend(parts: seq<string>, part: string)
    ensures Join("", parts + [part]) == Join("", parts) + part
  {
    if |parts| > 0 {
      assert (parts + [part])[..|parts|] == parts;
    }
  }

  lemma AppendAssoc<T>(a: seq<T>, b: seq<T>, c: seq<T>)
    ensures (a + b) + c == a + (b + c)
  {
  }

  lemma AppendTwo<T>(a: seq<T>, x: T, y: T)
    ensures (a + [x]) + [y] == a + [x, y]
  {
  }

  lemma PrefixOfAppend<T>(a: seq<T>, b: seq<T>)
    ensures a <= a + b
  {
  }

  // ---------------------------------------------------------------------------
  // os.path.basename and os.path.join (POSIX)

  /** Everything after the last '/' of `p`. */
  function Basename(p: string): (b: string)
    ensures '/' !in b
    ensures |b| <= |p| && p[|p| - |b|..] == b
    ensures |b| == |p| || p[|p| - |b| - 1] == '/'
  {
    if p == [] || p[|p| - 1] == '/' then ""
    else Basename(p[..|p| - 1]) + [p[|p| - 1]]
  }

  /** The base name of `dir + "/" + name` is `name` whenever `name` holds no '/'. */
  lemma {:induction false} BasenameAfterSlash(dir: string, name: string)
    requires '/' !in name
    ensures Basename(dir + "/" + name) == name
    decreases |name|
  {
    var p := dir + "/" + name;
    if name == [] {
      assert p[|p| - 1] == '/';
    } else {
      var name' := name[..|name| - 1];
      assert p[..|p| - 1] == dir + "/" + name';
      assert '/' !in name' by {
        forall i | 0 <= i < |name'| ensures name'[i] != '/' {
          assert name'[i] == name[i];
        }
      }
      BasenameAfterSlash(dir, name');
    }
  }

  /** `os.path.join(dir, name)`: the joined path ends with `name`. */
  function PathJoin(dir: string, name: string): (p: string)
    ensures |name| <= |p| && p[|p| - |name|..] == name
    ensures |name| > 0 && name[0] != '/' && dir != [] ==> dir <= p
  {
    if |name| > 0 && name[0] == '/' then name
    else if dir == [] || dir[|dir| - 1] == '/' then dir + name
    else dir + "/" + name
  }
}
