/**
 Container names: the agent builds them from a function name and a clock reading in nanoseconds, and
 two decoders, one in the agent and one in the gateway, take the function name out again.
 */
module ContainerNames {
  import opened Workers
  import opened Strings

  const PREFIX := "lambda-"

  function Named(functionName: string, suffix: string): string {
    PREFIX + functionName + "-" + suffix
  }

  /** The id Ensure gives a new container. */
  function Encode(functionName: string, nanos: int): string {
    Named(functionName, Printed(nanos))
  }

  /** The agent's decoder; an empty name stands for failure. */
  function AgentDecode(id: string): string {
    if !(PREFIX <= id) then ""
    else
      var parts := Split(id[|PREFIX|..], '-');
      if |parts| < 2 then "" else Join(parts[..|parts| - 1], '-')
  }

  /** The gateway's decoder. */
  function GatewayDecode(name: string): Option<string> {
    if !(PREFIX <= name) then None
    else
      var parts := Split(name, '-');
      if |parts| < 3 then None else Some(Join(parts[1..|parts| - 1], '-'))
  }

  /** A name that says which function it is for: prefix, function name, one more hyphen, suffix. */
  predicate Names(id: string, functionName: string, suffix: string) {
    id == Named(functionName, suffix) && '-' !in suffix
  }

  lemma PartsOfPrefixed(rest: string)
    ensures Split(PREFIX + rest, '-') == ["lambda"] + Split(rest, '-')
  {
    assert PREFIX + rest == "lambda" + ['-'] + rest;
    SplitAtSeparator("lambda", rest, '-');
    SplitWithoutSeparator("lambda", '-');
  }

  lemma PartsOfNamed(functionName: string, suffix: string)
    requires '-' !in suffix
    ensures Split(functionName + "-" + suffix, '-') == Split(functionName, '-') + [suffix]
  {
    assert functionName + "-" + suffix == functionName + ['-'] + suffix;
    SplitAtSeparator(functionName, suffix, '-');
    SplitWithoutSeparator(suffix, '-');
  }

  /** A name splits at its last hyphen in one way, if it has one. */
  lemma LastHyphen(rest: string) returns (functionName: string, suffix: string)
    requires |Split(rest, '-')| >= 2
    ensures rest == functionName + "-" + suffix && '-' !in suffix
    ensures functionName == Join(Split(rest, '-')[..|Split(rest, '-')| - 1], '-')
  {
    var parts := Split(rest, '-');
    var n := |parts| - 1;
    functionName, suffix := Join(parts[..n], '-'), parts[n];
    JoinOfSplit(rest, '-');
    assert parts == parts[..n] + [parts[n]];
    JoinAtSeparator(parts[..n], [parts[n]], '-');
    PartsHoldNoSeparator(rest, '-');
  }

  lemma NamesDecode(id: string, functionName: string, suffix: string)
    requires Names(id, functionName, suffix)
    ensures GatewayDecode(id) == Some(functionName)
  {
    var rest := functionName + "-" + suffix;
    assert id == PREFIX + rest;
    PartsOfPrefixed(rest);
    PartsOfNamed(functionName, suffix);
    assert Split(id, '-')[1..|Split(id, '-')| - 1] == Split(functionName, '-');
    JoinOfSplit(functionName, '-');
  }

  lemma DecodedNames(id: string, functionName: string) returns (suffix: string)
    requires GatewayDecode(id) == Some(functionName)
    ensures Names(id, functionName, suffix)
  {
    var rest := id[|PREFIX|..];
    assert id == PREFIX + rest;
    PartsOfPrefixed(rest);
    InnerParts(Split(rest, '-'));
    var f;
    f, suffix := LastHyphen(rest);
    Prefixed(f, suffix);
  }

  lemma InnerParts(short: seq<string>)
    requires short != []
    ensures (["lambda"] + short)[1..|short|] == short[..|short| - 1]
  {
  }

  lemma Prefixed(functionName: string, suffix: string)
    ensures PREFIX + (functionName + "-" + suffix) == Named(functionName, suffix)
  {
  }

  lemma NamesMeans(id: string, functionName: string, suffix: string)
    ensures Names(id, functionName, suffix) <==> id == "lambda-" + functionName + "-" + suffix && '-' !in suffix
  {
  }

  /** The gateway's decoder is sound and complete for well-formed names, and unambiguous. */
  lemma GatewayDecodesExactlyNames(id: string, functionName: string)
    ensures GatewayDecode(id) == Some(functionName) <==>
              exists suffix :: id == "lambda-" + functionName + "-" + suffix && '-' !in suffix
  {
    if suffix :| id == "lambda-" + functionName + "-" + suffix && '-' !in suffix {
      NamesMeans(id, functionName, suffix);
      NamesDecode(id, functionName, suffix);
    }
    if GatewayDecode(id) == Some(functionName) {
      var suffix := DecodedNames(id, functionName);
      NamesMeans(id, functionName, suffix);
    }
  }

  /** The id of a new container, spelled out. */
  lemma IdSpelledOut(functionName: string, nanos: int)
    ensures Encode(functionName, nanos) == "lambda-" + functionName + "-" + Printed(nanos)
  {
  }

  /** The two decoders agree on every string: the agent's answers "" where the gateway's fails. */
  lemma DecodersAgree(id: string)
    ensures AgentDecode(id) == match GatewayDecode(id) { case Some(f) => f case None => "" }
    ensures GatewayDecode(id).None? <==> !("lambda-" <= id) || '-' !in id[|"lambda-"|..]
  {
    if PREFIX <= id {
      var rest := id[|PREFIX|..];
      assert id == PREFIX + rest;
      PartsOfPrefixed(rest);
      var parts, short := Split(id, '-'), Split(rest, '-');
      if |parts| >= 3 {
        assert parts[1..|parts| - 1] == short[..|short| - 1];
        var f, suffix := LastHyphen(rest);
        assert rest[|f|] == '-';
      } else {
        PartsHoldNoSeparator(rest, '-');
        JoinOfSplit(rest, '-');
        assert short[0] in short;
      }
    }
  }

  /**
   Round trip: decoding the id built for a function gives the function back, hyphens and all, if and only
   if the clock reading is not negative. Before 1970 the sign adds a hyphen to the name.
   */
  lemma RoundTrip(functionName: string, nanos: int)
    ensures GatewayDecode(Encode(functionName, nanos)) == Some(functionName) <==> nanos >= 0
    ensures AgentDecode(Encode(functionName, nanos)) == functionName <==> nanos >= 0
    ensures nanos < 0 ==> AgentDecode(Encode(functionName, nanos)) == functionName + "-"
  {
    var id := Encode(functionName, nanos);
    DecodersAgree(id);
    if nanos >= 0 {
      NamesDecode(id, functionName, Decimal(nanos));
    } else {
      SignIsAHyphen(functionName, Decimal(-nanos));
      NamesDecode(id, functionName + "-", Decimal(-nanos));
    }
  }

  /** A name and a suffix without hyphens can be told from the id. */
  lemma NamedApart(f: string, d: string, g: string, e: string)
    requires '-' !in d && '-' !in e
    ensures Named(f, d) == Named(g, e) <==> f == g && d == e
  {
    if Named(f, d) == Named(g, e) {
      NamesDecode(Named(f, d), f, d);
      NamesDecode(Named(g, e), g, e);
      assert Named(f, d)[|PREFIX| + |f| + 1..] == d;
      assert Named(g, e)[|PREFIX| + |g| + 1..] == e;
    }
  }

  /** A sign reads like a hyphen at the end of the name. */
  lemma SignIsAHyphen(f: string, digits: string)
    ensures Named(f, "-" + digits) == Named(f + "-", digits)
  {
  }

  lemma SignedApart(f: string, d: string, g: string, e: string)
    requires '-' !in d && '-' !in e
    ensures Named(f, "-" + d) == Named(g, e) <==> f + "-" == g && d == e
    ensures Named(f, "-" + d) == Named(g, "-" + e) <==> f == g && d == e
  {
    SignIsAHyphen(f, d);
    SignIsAHyphen(g, e);
    NamedApart(f + "-", d, g, e);
    NamedApart(f + "-", d, g + "-", e);
    assert f == (f + "-")[..|f|] && g == (g + "-")[..|g|];
  }

  lemma DigitsApart(m: nat, n: nat)
    ensures '-' !in Decimal(m) && '-' !in Decimal(n) && (Decimal(m) == Decimal(n) <==> m == n)
  {
    if Decimal(m) == Decimal(n) { DecimalIsInjective(m, n); }
  }

  /** Different functions or clock readings make different ids. */
  lemma IdsAreFresh(f: string, m: nat, g: string, n: nat)
    ensures Encode(f, m) == Encode(g, n) <==> f == g && m == n
  {
    DigitsApart(m, n);
    NamedApart(f, Decimal(m), g, Decimal(n));
  }

  lemma EncodeSigned(f: string, n: int)
    requires n < 0
    ensures Encode(f, n) == Named(f, "-" + Decimal(-n))
  {
  }

  lemma MixedSigns(f: string, m: int, g: string, n: int)
    requires m < 0 <= n
    ensures Encode(f, m) == Encode(g, n) <==> n == -m && g == f + "-"
  {
    EncodeSigned(f, m);
    DigitsApart(-m, n);
    SignedApart(f, Decimal(-m), g, Decimal(n));
  }

  lemma BothSigned(f: string, m: int, g: string, n: int)
    requires m < 0 && n < 0
    ensures Encode(f, m) == Encode(g, n) <==> f == g && m == n
  {
    EncodeSigned(f, m);
    EncodeSigned(g, n);
    DigitsApart(-m, -n);
    SignedApart(f, Decimal(-m), g, Decimal(-n));
  }

  /**
   Over all clock readings, ids collide exactly for one function at one reading, and for a reading before
   1970 with the opposite reading of the function whose name has one more hyphen.
   */
  lemma IdsCollideIff(f: string, m: int, g: string, n: int)
    ensures Encode(f, m) == Encode(g, n) <==>
            (f == g && m == n) || (m < 0 && n == -m && g == f + "-") || (n < 0 && m == -n && f == g + "-")
  {
    if m < 0 && n < 0 {
      BothSigned(f, m, g, n);
    } else if m < 0 {
      MixedSigns(f, m, g, n);
    } else if n < 0 {
      MixedSigns(g, n, f, m);
    } else {
      IdsAreFresh(f, m, g, n);
    }
  }
}
