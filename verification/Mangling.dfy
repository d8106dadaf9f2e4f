/** Name mangling, as CppUtils::mangleFunctionName of src/ffi/ffi_cpp.cpp does it. */
module Mangling {
  // In the style of section 5.1 of the Itanium C++ ABI: length prefixes before names, letters for the builtin types.

  import opened Characters
  import opened Wrappers

  function DigitOf(n: nat): char
    requires n < 10
  {
    '0' + n as char
  }

  /** std::to_string of a length. */
  function Decimal(n: nat): (s: string)
    ensures |s| > 0 && forall i | 0 <= i < |s| :: IsDigit(s[i])
  {
    if n < 10 then [DigitOf(n)] else Decimal(n / 10) + [DigitOf(n % 10)]
  }

  /** The one-letter codes; every other type is written with its length. */
  function Code(t: string): string {
    if t == "int" then "i"
    else if t == "long" then "l"
    else if t == "float" then "f"
    else if t == "double" then "d"
    else if t == "bool" then "b"
    else if t == "char" then "c"
    else if t == "void" then "v"
    else Decimal(|t|) + t
  }

  function Codes(ts: seq<string>): string {
    if ts == [] then "" else Code(ts[0]) + Codes(ts[1..])
  }

  function Mangle(name: string, ts: seq<string>): string {
    "_Z" + Decimal(|name|) + name + Codes(ts)
  }

  method MangleFunctionName(functionName: string, paramTypes: seq<string>) returns (mangled: string)
    ensures mangled == Mangle(functionName, paramTypes)
  {
    hide Codes, Decimal;
    mangled := "_Z";
    mangled := mangled + Decimal(|functionName|);
    mangled := mangled + functionName;
    ghost var head := mangled;
    assert paramTypes[0..] == paramTypes;
    NoCodes(paramTypes[|paramTypes|..]);
    for i := 0 to |paramTypes|
      invariant mangled + Codes(paramTypes[i..]) == head + Codes(paramTypes)
    {
      var t := paramTypes[i];
      ghost var before := mangled;
      CodesStep(paramTypes, i);
      if t == "int" { mangled := mangled + "i"; }
      else if t == "long" { mangled := mangled + "l"; }
      else if t == "float" { mangled := mangled + "f"; }
      else if t == "double" { mangled := mangled + "d"; }
      else if t == "bool" { mangled := mangled + "b"; }
      else if t == "char" { mangled := mangled + "c"; }
      else if t == "void" { mangled := mangled + "v"; }
      else {
        mangled := mangled + Decimal(|t|);
        mangled := mangled + t;
        AppendAssociative(before, Decimal(|t|), t);
      }
      assert mangled == before + Code(t);
      AppendAssociative(before, Code(t), Codes(paramTypes[i + 1..]));
    }
  }

  lemma {:induction false} AppendAssociative(a: string, b: string, c: string)
    ensures a + (b + c) == a + b + c
  {
  }

  lemma {:induction false} NoCodes(ts: seq<string>)
    requires ts == []
    ensures Codes(ts) == ""
  {
  }

  lemma {:induction false} CodesStep(ts: seq<string>, i: nat)
    requires i < |ts|
    ensures Codes(ts[i..]) == Code(ts[i]) + Codes(ts[i + 1..])
  {
    hide Code;
    assert ts[i..][1..] == ts[i + 1..];
  }

  // A decoder

  /** The value of the leading digits, and what follows them. */
  function ReadDigitsOf(s: string, acc: nat): (r: (nat, string))
    ensures |r.1| <= |s|
    ensures s != "" && IsDigit(s[0]) ==> |r.1| < |s|
  {
    if s != "" && IsDigit(s[0]) then ReadDigitsOf(s[1..], 10 * acc + (s[0] - '0') as nat) else (acc, s)
  }

  /** A length: no decimal number but zero begins with a zero, so a zero stands alone. */
  function ReadNumber(s: string): (r: (nat, string))
    ensures |r.1| <= |s|
    ensures s != "" && IsDigit(s[0]) ==> |r.1| < |s|
  {
    if s != "" && s[0] == '0' then (0, s[1..]) else ReadDigitsOf(s, 0)
  }

  function ReadName(s: string): (r: Option<(string, string)>)
    ensures r.Some? && s != "" && IsDigit(s[0]) ==> |r.value.1| < |s|
  {
    var (n, rest) := ReadNumber(s);
    if n <= |rest| then Some((rest[..n], rest[n..])) else None
  }

  function TypeOfCode(c: char): Option<string> {
    match c
    case 'i' => Some("int")
    case 'l' => Some("long")
    case 'f' => Some("float")
    case 'd' => Some("double")
    case 'b' => Some("bool")
    case 'c' => Some("char")
    case 'v' => Some("void")
    case _ => None
  }

  function ReadTypes(s: string): Option<seq<string>>
    decreases |s|
  {
    if s == "" then Some([])
    else if IsDigit(s[0]) then
      match ReadName(s)
      case None => None
      case Some((t, rest)) =>
        match ReadTypes(rest) case None => None case Some(ts) => Some([t] + ts)
    else
      match TypeOfCode(s[0])
      case None => None
      case Some(t) => match ReadTypes(s[1..]) case None => None case Some(ts) => Some([t] + ts)
  }

  function Demangle(s: string): Option<(string, seq<string>)> {
    if |s| < 2 || s[..2] != "_Z" then None
    else
      match ReadName(s[2..])
      case None => None
      case Some((name, rest)) =>
        match ReadTypes(rest) case None => None case Some(ts) => Some((name, ts))
  }

  // Unique readability

  /** A name that the digits of its length cannot run into. */
  predicate Readable(name: string) {
    name == "" || !IsDigit(name[0])
  }

  ghost predicate AllReadable(ts: seq<string>) {
    forall t | t in ts :: Readable(t)
  }

  function Pow10(k: nat): nat {
    if k == 0 then 1 else 10 * Pow10(k - 1)
  }

  lemma {:induction false} ReadDigit(n: nat, rest: string, acc: nat)
    requires n < 10
    ensures ReadDigitsOf([DigitOf(n)] + rest, acc) == ReadDigitsOf(rest, 10 * acc + n)
  {
    var s := [DigitOf(n)] + rest;
    assert s[1..] == rest && (s[0] - '0') as nat == n;
  }

  lemma {:induction false} ShiftDigit(acc: nat, power: nat, n: nat)
    ensures 10 * (acc * power + n / 10) + n % 10 == acc * (10 * power) + n
  {
  }

  /** Reading the digits of n multiplies the accumulator up and adds n. */
  lemma {:induction false} ReadDigits(n: nat, rest: string, acc: nat)
    ensures ReadDigitsOf(Decimal(n) + rest, acc) == ReadDigitsOf(rest, acc * Pow10(|Decimal(n)|) + n)
    decreases n
  {
    hide ReadDigitsOf, DigitOf;
    if n < 10 {
      ReadDigit(n, rest, acc);
      assert Pow10(1) == 10 * Pow10(0);
    } else {
      var tail := [DigitOf(n % 10)] + rest;
      var power := Pow10(|Decimal(n / 10)|);
      assert Decimal(n) + rest == Decimal(n / 10) + tail;
      ReadDigits(n / 10, tail, acc);
      ReadDigit(n % 10, rest, acc * power + n / 10);
      ShiftDigit(acc, power, n);
    }
  }

  lemma {:induction false} NoLeadingZero(n: nat)
    requires n > 0
    ensures Decimal(n)[0] != '0'
    decreases n
  {
    if n >= 10 {
      NoLeadingZero(n / 10);
    }
  }

  lemma {:induction false} ReadLength(n: nat, rest: string)
    requires n > 0 ==> rest != "" && !IsDigit(rest[0])
    ensures ReadNumber(Decimal(n) + rest) == (n, rest)
  {
    var s := Decimal(n) + rest;
    if n == 0 {
      assert s == ['0'] + rest && s[1..] == rest;
    } else {
      NoLeadingZero(n);
      assert s[0] == Decimal(n)[0];
      ReadDigits(n, rest, 0);
    }
  }

  lemma {:induction false} ReadBack(name: string, rest: string)
    requires Readable(name)
    ensures ReadName(Decimal(|name|) + name + rest) == Some((name, rest))
  {
    hide Decimal, ReadNumber;
    var tail := name + rest;
    assert Decimal(|name|) + name + rest == Decimal(|name|) + tail;
    assert tail[..|name|] == name && tail[|name|..] == rest;
    ReadLength(|name|, tail);
  }

  lemma {:induction false} ReadType(t: string, rest: string)
    requires Readable(t)
    ensures Code(t) != ""
    ensures var s := Code(t) + rest;
            if IsDigit(s[0]) then ReadName(s) == Some((t, rest))
            else TypeOfCode(s[0]) == Some(t) && s[1..] == rest
  {
    if Code(t) == Decimal(|t|) + t {
      assert Code(t) + rest == Decimal(|t|) + t + rest;
      ReadBack(t, rest);
    }
  }

  lemma {:induction false} ReadTypesBack(ts: seq<string>)
    requires AllReadable(ts)
    ensures ReadTypes(Codes(ts)) == Some(ts)
  {
    if ts != [] {
      var s := Codes(ts);
      assert ts == [ts[0]] + ts[1..];
      ReadType(ts[0], Codes(ts[1..]));
      ReadTypesBack(ts[1..]);
    }
  }

  /** The decoder recovers the name and the parameter list, empty names included. */
  lemma {:induction false} DemangleInverts(name: string, ts: seq<string>)
    requires Readable(name) && AllReadable(ts)
    ensures Demangle(Mangle(name, ts)) == Some((name, ts))
  {
    hide Decimal, ReadName, ReadTypes, Codes;
    var s, tail := Mangle(name, ts), Decimal(|name|) + name + Codes(ts);
    assert "_Z" + Decimal(|name|) + name + Codes(ts) == "_Z" + tail;
    assert s[..2] == "_Z" && s[2..] == tail;
    ReadBack(name, Codes(ts));
    ReadTypesBack(ts);
  }

  /** So mangling is injective on names that do not start with a digit. */
  lemma {:induction false} MangleInjective(name: string, ts: seq<string>, name': string, ts': seq<string>)
    requires Readable(name) && Readable(name') && AllReadable(ts) && AllReadable(ts')
    requires Mangle(name, ts) == Mangle(name', ts')
    ensures name == name' && ts == ts'
  {
    DemangleInverts(name, ts);
    DemangleInverts(name', ts');
  }

  // Names that start with a digit

  predicate AllDigits(s: string) {
    forall c | c in s :: IsDigit(c)
  }

  /** The number of leading digits. */
  function DigitCount(s: string): (k: nat)
    ensures k <= |s| && AllDigits(s[..k]) && (k < |s| ==> !IsDigit(s[k]))
    ensures s != "" && IsDigit(s[0]) ==> k > 0
  {
    if s == "" || !IsDigit(s[0]) then 0 else 1 + DigitCount(s[1..])
  }

  /** The number n with the given digits appended. */
  function Appended(n: nat, digits: string): (r: nat)
    requires AllDigits(digits)
    ensures r >= n
    decreases |digits|
  {
    if digits == "" then n
    else
      assert digits[0] in digits;
      Appended(10 * n + (digits[0] - '0') as nat, digits[1..])
  }

  lemma {:induction false} DecimalAppended(n: nat, digits: string)
    requires n > 0 && AllDigits(digits)
    ensures Decimal(Appended(n, digits)) == Decimal(n) + digits
    ensures digits != "" ==> Appended(n, digits) >= 10 * n
    decreases |digits|
  {
    if digits == "" {
      assert Decimal(n) + digits == Decimal(n);
    } else {
      assert digits[0] in digits;
      var d := (digits[0] - '0') as nat;
      DecimalAppended(10 * n + d, digits[1..]);
      assert (10 * n + d) / 10 == n && (10 * n + d) % 10 == d;
      assert Decimal(10 * n + d) == Decimal(n) + [digits[0]];
      assert Decimal(n) + digits == Decimal(n) + [digits[0]] + digits[1..];
    }
  }

  function Ints(k: nat): (ts: seq<string>)
    ensures |ts| == k
  {
    seq(k, _ => "int")
  }

  /** The name that is read when the leading digits of a name run into its length, completed by k "i"s. */
  function Misread(name: string, k: nat): string {
    name[DigitCount(name)..] + seq(k, _ => 'i')
  }

  /** How many "int" parameters complete it. */
  function Missing(name: string): nat
    requires !Readable(name)
  {
    Appended(|name|, name[..DigitCount(name)]) - (|name| - DigitCount(name))
  }

  /** The length and the digits of such a name read like a longer length. */
  lemma {:induction false} DigitsRunOn(name: string)
    requires !Readable(name)
    ensures Missing(name) > 0
    ensures var other := Misread(name, Missing(name));
            && Readable(other) && other != name && |other| >= 10
            && Decimal(|name|) + name + seq(Missing(name), _ => 'i') == Decimal(|other|) + other
  {
    var c, k := DigitCount(name), Missing(name);
    var digits, rest := name[..c], name[c..];
    DecimalAppended(|name|, digits);
    var pad := seq(k, _ => 'i');
    var other := rest + pad;
    assert name == digits + rest;
    assert |other| == Appended(|name|, digits);
    assert other[0] == if rest == "" then 'i' else rest[0];
    assert Decimal(|name|) + name + pad == Decimal(|name|) + digits + (rest + pad);
  }

  /** Every function name that starts with a digit collides with a name that does not. */
  lemma {:induction false} DigitNameCollides(name: string)
    requires !Readable(name)
    ensures var other := Misread(name, Missing(name));
            Readable(other) && other != name && Mangle(name, Ints(Missing(name))) == Mangle(other, [])
  {
    hide Decimal, Misread, Missing;
    DigitsRunOn(name);
    var k := Missing(name);
    IntCodes(Ints(k));
    var other := Misread(name, k);
    assert Codes([]) == "";
    assert "_Z" + Decimal(|name|) + name + Codes(Ints(k)) == "_Z" + (Decimal(|name|) + name + Codes(Ints(k)));
    assert "_Z" + Decimal(|other|) + other + "" == "_Z" + (Decimal(|other|) + other);
  }

  /** Every type name that starts with a digit does, too, as a parameter of any function. */
  lemma {:induction false} DigitTypeCollides(name: string, t: string)
    requires !Readable(t)
    ensures var other := Misread(t, Missing(t));
            Readable(other) && other != t && Mangle(name, [t] + Ints(Missing(t))) == Mangle(name, [other])
  {
    hide Decimal, Misread, Missing;
    DigitsRunOn(t);
    var k := Missing(t);
    var other := Misread(t, k);
    IntCodes(Ints(k));
    assert ([t] + Ints(k))[1..] == Ints(k) && [other][1..] == [];
    assert Code(t) == Decimal(|t|) + t by {
      assert t != "int" && t != "long" && t != "float" && t != "double" && t != "bool" && t != "char" && t != "void";
    }
    assert Code(other) == Decimal(|other|) + other;
    assert Codes([t] + Ints(k)) == Code(t) + Codes(Ints(k)) == Code(other);
    assert Codes([other]) == Code(other) + "";
  }

  /** A function name that no other signature over readable names is confused with, whatever its parameters. */
  ghost predicate Distinct(name: string) {
    forall ts, name', ts' |
      AllReadable(ts) && AllReadable(ts') && Readable(name') && Mangle(name, ts) == Mangle(name', ts')
      :: name == name' && ts == ts'
  }

  /** Exactly the names that do not start with a digit are mangled unambiguously. */
  lemma {:induction false} DistinctIffReadable(name: string)
    ensures Distinct(name) <==> Readable(name)
  {
    if Readable(name) {
      forall ts, name', ts' |
        AllReadable(ts) && AllReadable(ts') && Readable(name') && Mangle(name, ts) == Mangle(name', ts')
        ensures name == name' && ts == ts'
      {
        MangleInjective(name, ts, name', ts');
      }
    } else {
      DigitNameCollides(name);
      assert AllReadable(Ints(Missing(name))) && AllReadable([]);
    }
  }

  /** A type name that can stand anywhere in a parameter list of readable names and itself. */
  ghost predicate DistinctType(t: string) {
    forall name, ts, ts' |
      (forall u | u in ts :: u == t || Readable(u)) && AllReadable(ts') && Readable(name)
      && Mangle(name, ts) == Mangle(name, ts')
      :: ts == ts'
  }

  /** The same holds of type names. */
  lemma {:induction false} DistinctTypeIffReadable(t: string)
    ensures DistinctType(t) <==> Readable(t)
  {
    if Readable(t) {
      forall name, ts, ts' |
        (forall u | u in ts :: u == t || Readable(u)) && AllReadable(ts') && Readable(name)
        && Mangle(name, ts) == Mangle(name, ts')
        ensures ts == ts'
      {
        MangleInjective(name, ts, name, ts');
      }
    } else {
      DigitTypeCollides("f", t);
      var ts, ts' := [t] + Ints(Missing(t)), [Misread(t, Missing(t))];
      assert ts[0] == t && ts'[0] != t;
      assert Readable("f") && AllReadable(ts');
    }
  }

  /** The smallest case: the length 1 of the name "1" and the name itself read like the length 11. */
  lemma {:induction false} DigitNamesCollide()
    ensures var ints := seq(11, _ => "int");
            Mangle("1", ints) == Mangle("iiiiiiiiiii", [])
  {
    var ints := seq(11, _ => "int");
    IntCodes(ints);
    assert Codes(ints) == "iiiiiiiiiii";
    assert Decimal(1) == "1" && Decimal(11) == "11";
    calc {
      Mangle("1", ints);
      "_Z" + "1" + "1" + "iiiiiiiiiii";
      "_Z" + "11" + "iiiiiiiiiii" + "";
      Mangle("iiiiiiiiiii", []);
    }
  }

  lemma {:induction false} IntCodes(ts: seq<string>)
    requires forall i | 0 <= i < |ts| :: ts[i] == "int"
    ensures Codes(ts) == seq(|ts|, _ => 'i')
  {
    if ts != [] {
      IntCodes(ts[1..]);
    }
  }
}
