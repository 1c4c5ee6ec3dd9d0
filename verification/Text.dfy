/** Strings as the operator uses them: splitting and joining on a separator,
    decimal numbers, and the `%s`, `%d` and `%%` verbs of Go's formatted printing. */
module Text {
  import opened Sequences

  datatype Option<+T> = None | Some(value: T)

  /** A Go call either returns or panics. */
  datatype Outcome<+T> = Returned(value: T) | Panicked

  /** The position of the first `c` in `s`, or the length of `s` when there is none. */
  function IndexOf(s: string, c: char): (i: nat)
    ensures i <= |s|
    ensures forall j | 0 <= j < i :: s[j] != c
    ensures i < |s| ==> s[i] == c
  {
    if s == [] || s[0] == c then 0 else IndexOf(s[1..], c) + 1
  }

  lemma IndexOfAppend(a: string, c: char, b: string)
    requires c !in a
    ensures IndexOf(a + [c] + b, c) == |a|
  {
    var s := a + [c] + b;
    assert s[|a|] == c;
    assert forall j | 0 <= j < |a| :: s[j] == a[j] && a[j] in a;
  }

  /** `strings.Split` for a one-character separator. */
  function Split(s: string, c: char): (parts: seq<string>)
    ensures |parts| >= 1
  {
    var i := IndexOf(s, c);
    if i == |s| then [s] else [s[..i]] + Split(s[i + 1..], c)
  }

  /** `strings.Join`. */
  function Join(parts: seq<string>, sep: string): (s: string)
  {
    if |parts| == 0 then ""
    else if |parts| == 1 then parts[0]
    else parts[0] + sep + Join(parts[1..], sep)
  }

  lemma SplitWithout(s: string, c: char)
    requires c !in s
    ensures Split(s, c) == [s]
  {
    assert forall j | 0 <= j < |s| :: s[j] in s;
  }

  lemma SplitCons(a: string, c: char, b: string)
    requires c !in a
    ensures Split(a + [c] + b, c) == [a] + Split(b, c)
  {
    IndexOfAppend(a, c, b);
    assert (a + [c] + b)[..|a|] == a;
    assert (a + [c] + b)[|a| + 1..] == b;
  }

  /** Splitting undoes joining, for a non-empty list of parts free of the separator. */
  lemma {:induction false} SplitJoin(parts: seq<string>, c: char)
    requires |parts| >= 1
    requires forall p | p in parts :: c !in p
    ensures Split(Join(parts, [c]), c) == parts
  {
    if |parts| == 1 {
      SplitWithout(parts[0], c);
    } else {
      SplitJoin(parts[1..], c);
      SplitCons(parts[0], c, Join(parts[1..], [c]));
    }
  }

  /** Every part of a split is free of the separator. */
  lemma {:induction false} SplitPartsLack(s: string, c: char)
    ensures forall p | p in Split(s, c) :: c !in p
    decreases |s|
  {
    var i := IndexOf(s, c);
    if i < |s| {
      SplitPartsLack(s[i + 1..], c);
      var rest := Split(s[i + 1..], c);
      forall p | p in [s[..i]] + rest ensures c !in p {
        assert p == s[..i] || p in rest;
      }
    }
  }

  /** Joining undoes splitting. */
  lemma {:induction false} JoinSplit(s: string, c: char)
    ensures Join(Split(s, c), [c]) == s
    decreases |s|
  {
    var i := IndexOf(s, c);
    if i < |s| {
      JoinSplit(s[i + 1..], c);
      var rest := Split(s[i + 1..], c);
      assert ([s[..i]] + rest)[1..] == rest;
      assert s == s[..i] + [c] + s[i + 1..];
    }
  }

  // ----- Decimal numbers -----

  predicate AllDigits(s: string)
  {
    forall i | 0 <= i < |s| :: '0' <= s[i] <= '9'
  }

  /** Decimal digits of a natural number, without leading zeros. */
  function Itoa(n: nat): (s: string)
    ensures |s| >= 1 && AllDigits(s)
  {
    if n < 10 then ['0' + n as char] else Itoa(n / 10) + ['0' + (n % 10) as char]
  }

  /** The number a digit string denotes. */
  function Atoi(s: string): (n: nat)
    requires AllDigits(s)
  {
    if s == [] then 0 else Atoi(s[..|s| - 1]) * 10 + (s[|s| - 1] - '0') as nat
  }

  lemma {:induction false} AtoiItoa(n: nat)
    ensures Atoi(Itoa(n)) == n
  {
    if n >= 10 {
      AtoiItoa(n / 10);
      assert Itoa(n)[..|Itoa(n)| - 1] == Itoa(n / 10);
    } else {
      assert Itoa(n)[..0] == [];
    }
  }

  lemma ItoaInjective(m: nat, n: nat)
    requires Itoa(m) == Itoa(n)
    ensures m == n
  {
    AtoiItoa(m);
    AtoiItoa(n);
  }

  /** `strconv.Itoa`, and the `%d` verb. */
  function FormatInt(n: int): (s: string)
    ensures n >= 0 ==> s == Itoa(n)
  {
    if n < 0 then "-" + Itoa(-n) else Itoa(n)
  }

  lemma DigitsLack(n: nat, c: char)
    requires !('0' <= c <= '9')
    ensures c !in Itoa(n)
  {
    assert AllDigits(Itoa(n));
  }

  // ----- Formatted printing -----

  datatype Arg = Str(s: string) | Num(n: int)

  /** `fmt.Sprintf` for the verbs `%s`, `%d` and `%%`. Anything else leaves the marker `%!`,
      and so do arguments that no verb uses. */
  function Sprintf(format: string, args: seq<Arg>): (out: string)
  {
    if format == [] then if args == [] then "" else "%!"
    else if format[0] != '%' then [format[0]] + Sprintf(format[1..], args)
    else if |format| == 1 then "%!"
    else if format[1] == '%' then "%" + Sprintf(format[2..], args)
    else if format[1] == 's' && args != [] && args[0].Str? then args[0].s + Sprintf(format[2..], args[1..])
    else if format[1] == 'd' && args != [] && args[0].Num? then FormatInt(args[0].n) + Sprintf(format[2..], args[1..])
    else "%!" + Sprintf(format[2..], args)
  }

  lemma SprintfChar(c: char, format: string, args: seq<Arg>)
    requires c != '%'
    ensures Sprintf([c] + format, args) == [c] + Sprintf(format, args)
  {
    assert ([c] + format)[1..] == format;
  }

  lemma {:induction false} SprintfPlain(plain: string, format: string, args: seq<Arg>)
    requires '%' !in plain
    ensures Sprintf(plain + format, args) == plain + Sprintf(format, args)
  {
    if plain == [] {
      assert plain + format == format;
    } else {
      var first, rest := [plain[0]], plain[1..];
      assert plain == first + rest;
      SprintfPlain(rest, format, args);
      SprintfChar(plain[0], rest + format, args);
      Associate(first, rest, format);
      Associate(first, rest, Sprintf(format, args));
    }
  }

  lemma SprintfText(plain: string)
    requires '%' !in plain
    ensures Sprintf(plain, []) == plain
  {
    SprintfPlain(plain, "", []);
    assert plain + "" == plain;
  }

  lemma SprintfStr(format: string, x: string, args: seq<Arg>)
    ensures Sprintf("%s" + format, [Str(x)] + args) == x + Sprintf(format, args)
  {
    assert ("%s" + format)[2..] == format;
    assert ([Str(x)] + args)[1..] == args;
  }

  lemma SprintfNum(format: string, n: int, args: seq<Arg>)
    ensures Sprintf("%d" + format, [Num(n)] + args) == FormatInt(n) + Sprintf(format, args)
  {
    assert ("%d" + format)[2..] == format;
    assert ([Num(n)] + args)[1..] == args;
  }

  lemma SprintfPercent(format: string, args: seq<Arg>)
    ensures Sprintf("%%" + format, args) == "%" + Sprintf(format, args)
  {
    assert ("%%" + format)[2..] == format;
  }

  /** A string verb followed by plain text. */
  lemma SprintfStrThen(x: string, plain: string, format: string, args: seq<Arg>)
    requires '%' !in plain
    ensures Sprintf("%s" + (plain + format), [Str(x)] + args) == x + (plain + Sprintf(format, args))
  {
    SprintfStr(plain + format, x, args);
    SprintfPlain(plain, format, args);
  }
}
