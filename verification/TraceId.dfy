/** The trace header: `Root=...;Parent=...;Sampled=...`, parsed leniently and printed strictly. */
module TraceId {
  import opened Workers
  import opened Strings

  datatype TraceId = TraceId(root: string, parent: Option<string>, sampled: string)

  // ---------- white space ----------

  /** The characters str.strip removes. */
  predicate IsSpace(c: char) {
    var n := c as int;
    || 0x09 <= n <= 0x0D || 0x1C <= n <= 0x20 || n == 0x85 || n == 0xA0 || n == 0x1680
    || 0x2000 <= n <= 0x200A || n == 0x2028 || n == 0x2029 || n == 0x202F || n == 0x205F || n == 0x3000
  }

  /** They are these and no others. */
  lemma WhiteSpace(c: char)
    ensures IsSpace(c) <==>
            c as int in [0x09, 0x0A, 0x0B, 0x0C, 0x0D, 0x1C, 0x1D, 0x1E, 0x1F, 0x20, 0x85, 0xA0, 0x1680,
                         0x2000, 0x2001, 0x2002, 0x2003, 0x2004, 0x2005, 0x2006, 0x2007, 0x2008, 0x2009, 0x200A,
                         0x2028, 0x2029, 0x202F, 0x205F, 0x3000]
  {
  }

  function StripLeft(s: string): string {
    if s != "" && IsSpace(s[0]) then StripLeft(s[1..]) else s
  }

  function StripRight(s: string): string {
    if s != "" && IsSpace(s[|s| - 1]) then StripRight(s[..|s| - 1]) else s
  }

  function Strip(s: string): string {
    StripRight(StripLeft(s))
  }

  /** Nothing to strip. */
  predicate Trimmed(s: string) {
    s != "" ==> !IsSpace(s[0]) && !IsSpace(s[|s| - 1])
  }

  lemma {:induction false} StripLeftFacts(s: string)
    ensures StripLeft(s) != "" ==> !IsSpace(StripLeft(s)[0])
    ensures forall c :: c in StripLeft(s) ==> c in s
    ensures forall c :: c in s && !IsSpace(c) ==> c in StripLeft(s)
  {
    if s != "" && IsSpace(s[0]) {
      var t := s[1..];
      StripLeftFacts(t);
      assert StripLeft(s) == StripLeft(t);
      forall c | c in s && !IsSpace(c) ensures c in t { assert s == [s[0]] + t; }
    } else {
      assert StripLeft(s) == s;
    }
  }

  lemma {:induction false} StripRightFacts(s: string)
    ensures var r := StripRight(s);
            && (r != "" ==> !IsSpace(r[|r| - 1]) && r[0] == s[0])
            && (forall c :: c in r ==> c in s) && (forall c :: c in s && !IsSpace(c) ==> c in r)
  {
    if s != "" && IsSpace(s[|s| - 1]) {
      var t := s[..|s| - 1];
      StripRightFacts(t);
      assert StripRight(s) == StripRight(t);
      forall c | c in s && !IsSpace(c) ensures c in t { assert s == t + [s[|s| - 1]]; }
    } else {
      assert StripRight(s) == s;
    }
  }

  /** Strip yields the trimmed string with the same characters, white space apart, and leaves trimmed strings alone. */
  lemma StripFacts(s: string)
    ensures Trimmed(Strip(s)) && (Trimmed(s) <==> Strip(s) == s)
    ensures forall c :: c in Strip(s) ==> c in s
    ensures forall c :: c in s && !IsSpace(c) ==> c in Strip(s)
  {
    StripLeftFacts(s);
    StripRightFacts(StripLeft(s));
  }

  predicate Blank(s: string) {
    forall c :: c in s ==> IsSpace(c)
  }

  lemma {:induction false} StripLeftIs(s: string) returns (front: string)
    ensures s == front + StripLeft(s) && Blank(front)
  {
    front := "";
    if s != "" && IsSpace(s[0]) {
      var rest := StripLeftIs(s[1..]);
      front := [s[0]] + rest;
      assert s == [s[0]] + s[1..];
    }
  }

  lemma {:induction false} StripRightIs(s: string) returns (back: string)
    ensures s == StripRight(s) + back && Blank(back)
  {
    back := "";
    if s != "" && IsSpace(s[|s| - 1]) {
      var rest := StripRightIs(s[..|s| - 1]);
      back := rest + [s[|s| - 1]];
      assert s == s[..|s| - 1] + [s[|s| - 1]];
    }
  }

  /** Strip takes white space off both ends, all of it, and nothing else. */
  lemma StripIs(s: string) returns (front: string, back: string)
    ensures s == front + Strip(s) + back && Blank(front) && Blank(back) && Trimmed(Strip(s))
  {
    front := StripLeftIs(s);
    back := StripRightIs(StripLeft(s));
    StripFacts(s);
  }

  // ---------- parsing ----------

  /** A part is a key and a value, divided at its first '='; a part without one means nothing. */
  function KeyAndValue(part: string): Option<(string, string)> {
    if '=' in part then
      var i := IndexOf(part, '=');
      Some((Strip(part[..i]), Strip(part[i + 1..])))
    else None
  }

  /** The value of the last part with that key. */
  function LastValue(parts: seq<string>, key: string): Option<string> {
    if parts == [] then None
    else
      var kv := KeyAndValue(parts[|parts| - 1]);
      if kv.Some? && kv.value.0 == key then Some(kv.value.1) else LastValue(parts[..|parts| - 1], key)
  }

  /** A part divides at its first '=', if it has one, into a trimmed key and a trimmed value. */
  lemma PartDivides(key: string, value: string)
    requires '=' !in key
    ensures KeyAndValue(key + "=" + value) == Some((Strip(key), Strip(value)))
    ensures KeyAndValue(key) == None
  {
    var part := key + "=" + value;
    assert part[|key|] == '=' && part[..|key|] == key && part[|key| + 1..] == value;
    FirstOccurrence(part, '=', |key|);
  }

  /** Part i has the key, and no later one has. */
  ghost predicate LastWith(parts: seq<string>, key: string, i: nat, value: string) {
    && i < |parts| && KeyAndValue(parts[i]) == Some((key, value))
    && forall j :: i < j < |parts| ==> KeyAndValue(parts[j]).None? || KeyAndValue(parts[j]).value.0 != key
  }

  /** A key's value is that of the last part with the key; there is none if and only if no part has it. */
  lemma {:induction false} LastValueIs(parts: seq<string>, key: string, value: string)
    ensures LastValue(parts, key) == Some(value) <==> exists i :: LastWith(parts, key, i, value)
    ensures LastValue(parts, key) == None <==>
              forall i :: 0 <= i < |parts| ==> KeyAndValue(parts[i]).None? || KeyAndValue(parts[i]).value.0 != key
  {
    if parts != [] {
      var n := |parts| - 1;
      var init := parts[..n];
      LastValueIs(init, key, value);
      assert parts == init + [parts[n]];
      var kv := KeyAndValue(parts[n]);
      if kv.Some? && kv.value.0 == key {
        assert kv.value.1 == value ==> LastWith(parts, key, n, value);
      } else {
        forall i | LastWith(init, key, i, value) ensures LastWith(parts, key, i, value) {}
        forall i | LastWith(parts, key, i, value) ensures LastWith(init, key, i, value) { assert i != n; }
      }
    }
  }

  function Field(header: string, key: string): Option<string> {
    LastValue(Split(header, ';'), key)
  }

  /** A raw id instead of a header. */
  predicate IsRaw(header: string) {
    '-' in header && '=' !in header
  }

  function Parsed(header: string): TraceId {
    TraceId(
      if IsRaw(header) then Strip(header)
      else match Field(header, "Root") { case Some(v) => v case None => "" },
      Field(header, "Parent"),
      match Field(header, "Sampled") { case Some(v) => v case None => "1" })
  }

  lemma OnePartMore(pieces: seq<string>, i: nat, key: string)
    requires i < |pieces|
    ensures LastValue(pieces[..i + 1], key) ==
            var kv := KeyAndValue(pieces[i]);
            if kv.Some? && kv.value.0 == key then Some(kv.value.1) else LastValue(pieces[..i], key)
  {
    assert pieces[..i + 1][..i] == pieces[..i];
  }

  /** The loop that fills the dictionary; a later part overwrites an earlier one of the same key. */
  method ReadParts(pieces: seq<string>) returns (parts: map<string, string>)
    ensures forall k :: LastValue(pieces, k) == if k in parts then Some(parts[k]) else None
  {
    parts := map[];
    var i := 0;
    while i < |pieces|
      invariant 0 <= i <= |pieces|
      invariant forall k :: LastValue(pieces[..i], k) == if k in parts then Some(parts[k]) else None
    {
      var part := pieces[i];
      forall k { OnePartMore(pieces, i, k); }
      if '=' in part {
        var at := IndexOf(part, '=');
        parts := parts[Strip(part[..at]) := Strip(part[at + 1..])];
      }
      i := i + 1;
    }
    assert pieces[..i] == pieces;
  }

  method Parse(header: string) returns (t: TraceId)
    ensures '-' in header && '=' !in header ==> t == TraceId(Strip(header), None, "1")
    ensures t == Parsed(header)
  {
    if '-' in header && '=' !in header { RawIdIsTheRoot(header); }
    var parts := ReadParts(Split(header, ';'));
    var root := if "Root" in parts then parts["Root"] else "";
    var parent := if "Parent" in parts then Some(parts["Parent"]) else None;
    var sampled := if "Sampled" in parts then parts["Sampled"] else "1";
    RawHasNoFields(header, "Root");
    if root == "" && header != "" && '-' in header && '=' !in header { root := Strip(header); }
    return TraceId(root, parent, sampled);
  }

  lemma {:induction false} NoValueWithoutParts(parts: seq<string>, key: string)
    requires forall p :: p in parts ==> '=' !in p
    ensures LastValue(parts, key) == None
  {
    if parts != [] { NoValueWithoutParts(parts[..|parts| - 1], key); }
  }

  lemma {:induction false} PartsAreFromTheHeader(s: string, sep: char, c: char)
    requires c !in s
    ensures forall p :: p in Split(s, sep) ==> c !in p
  {
    if s != "" { PartsAreFromTheHeader(s[1..], sep, c); }
  }

  lemma RawHasNoFields(header: string, key: string)
    ensures '=' !in header ==> Field(header, key) == None
  {
    if '=' !in header {
      PartsAreFromTheHeader(header, ';', '=');
      NoValueWithoutParts(Split(header, ';'), key);
    }
  }

  /** A header with a '-' and no '=' is an id: its root is the header trimmed, and nothing else is known. */
  lemma RawIdIsTheRoot(header: string)
    requires '-' in header && '=' !in header
    ensures Parsed(header) == TraceId(Strip(header), None, "1")
  {
    RawHasNoFields(header, "Root");
    RawHasNoFields(header, "Parent");
    RawHasNoFields(header, "Sampled");
  }

  /** Any other header gives what its parts say, or "", nothing and "1". */
  lemma FieldsAreTheLastValues(header: string)
    requires '-' !in header || '=' in header
    ensures var parts := Split(header, ';'); var t := Parsed(header);
            && t.root == (match LastValue(parts, "Root") case Some(v) => v case None => "")
            && t.parent == LastValue(parts, "Parent")
            && t.sampled == (match LastValue(parts, "Sampled") case Some(v) => v case None => "1")
  {
  }

  // ---------- printing ----------

  function Part(key: string, value: string): string {
    key + "=" + value
  }

  /** A part that is left out when its value is empty. */
  function Optional(key: string, value: string): seq<string> {
    if value == "" then [] else [Part(key, value)]
  }

  function OptionalText(key: string, value: string): string {
    if value == "" then "" else ";" + Part(key, value)
  }

  function ParentOf(t: TraceId): string {
    if t.parent.Some? then t.parent.value else ""
  }

  function Header(t: TraceId): string {
    Part("Root", t.root) + OptionalText("Parent", ParentOf(t)) + OptionalText("Sampled", t.sampled)
  }

  /** `__str__` */
  method ToHeader(t: TraceId) returns (s: string)
    ensures s == "Root=" + t.root
                 + (if t.parent == None || t.parent == Some("") then "" else ";Parent=" + t.parent.value)
                 + (if t.sampled == "" then "" else ";Sampled=" + t.sampled)
    ensures s == Header(t)
  {
    s := "Root=" + t.root;
    if t.parent.Some? && t.parent.value != "" { s := s + (";Parent=" + t.parent.value); }
    if t.sampled != "" { s := s + (";Sampled=" + t.sampled); }
    assert s == s + "";
    HeaderSpelledOut(t);
  }

  lemma PartSpelledOut(value: string)
    ensures Part("Root", value) == "Root=" + value
    ensures ";" + Part("Parent", value) == ";Parent=" + value
    ensures ";" + Part("Sampled", value) == ";Sampled=" + value
  {
  }

  lemma HeaderSpelledOut(t: TraceId)
    ensures Header(t) == "Root=" + t.root
                         + (if t.parent == None || t.parent == Some("") then "" else ";Parent=" + t.parent.value)
                         + (if t.sampled == "" then "" else ";Sampled=" + t.sampled)
  {
    PartSpelledOut(t.root);
    PartSpelledOut(ParentOf(t));
    PartSpelledOut(t.sampled);
  }

  // ---------- round trips ----------

  /** What a header can carry as a value: '=' is fine, ';' and outer white space are not. */
  predicate Carried(value: string) {
    Trimmed(value) && ';' !in value
  }

  predicate Canonical(t: TraceId) {
    && Carried(t.root)
    && (t.parent.Some? ==> t.parent.value != "" && Carried(t.parent.value))
    && t.sampled != "" && Carried(t.sampled)
  }

  /** A printed part is read back as it was meant. */
  lemma PrintedPart(key: string, value: string)
    requires '=' !in key && Trimmed(key) && Trimmed(value)
    ensures KeyAndValue(Part(key, value)) == Some((key, value))
  {
    var part := Part(key, value);
    assert part[|key|] == '=' && part[..|key|] == key && part[|key| + 1..] == value;
    FirstOccurrence(part, '=', |key|);
    StripFacts(key);
    StripFacts(value);
  }

  lemma SplitOptional(front: string, key: string, value: string)
    requires ';' !in key && ';' !in value
    ensures Split(front + OptionalText(key, value), ';') == Split(front, ';') + Optional(key, value)
  {
    if value == "" {
      assert front + OptionalText(key, value) == front;
    } else {
      assert front + OptionalText(key, value) == front + [';'] + Part(key, value);
      SplitAtSeparator(front, Part(key, value), ';');
      SplitWithoutSeparator(Part(key, value), ';');
    }
  }

  lemma PartsOfHeader(t: TraceId)
    requires ';' !in t.root && ';' !in ParentOf(t) && ';' !in t.sampled
    ensures Split(Header(t), ';')
         == [Part("Root", t.root)] + Optional("Parent", ParentOf(t)) + Optional("Sampled", t.sampled)
  {
    SplitWithoutSeparator(Part("Root", t.root), ';');
    SplitOptional(Part("Root", t.root), "Parent", ParentOf(t));
    SplitOptional(Part("Root", t.root) + OptionalText("Parent", ParentOf(t)), "Sampled", t.sampled);
  }

  lemma LookUpPastOptional(front: seq<string>, key: string, value: string, sought: string)
    requires '=' !in key && Trimmed(key) && Trimmed(value)
    ensures LastValue(front + Optional(key, value), sought) ==
            if key == sought && value != "" then Some(value) else LastValue(front, sought)
  {
    PrintedPart(key, value);
    if value == "" {
      assert front + Optional(key, value) == front;
    } else {
      assert (front + Optional(key, value))[..|front|] == front;
    }
  }

  /** What the header says under a key. */
  lemma FieldOfHeader(t: TraceId, key: string)
    requires Carried(t.root) && (t.parent.Some? ==> Carried(t.parent.value)) && Carried(t.sampled)
    ensures Field(Header(t), key) ==
            if key == "Sampled" && t.sampled != "" then Some(t.sampled)
            else if key == "Parent" && ParentOf(t) != "" then Some(ParentOf(t))
            else if key == "Root" then Some(t.root)
            else None
  {
    PartsOfHeader(t);
    var root := Part("Root", t.root);
    PrintedPart("Root", t.root);
    assert [root][..0] == [];
    assert LastValue([root], key) == if key == "Root" then Some(t.root) else None;
    LookUpPastOptional([root], "Parent", ParentOf(t), key);
    LookUpPastOptional([root] + Optional("Parent", ParentOf(t)), "Sampled", t.sampled, key);
  }

  /** Every value read from a header is one a header can carry. */
  lemma {:induction false} ReadValuesAreCarried(parts: seq<string>, key: string)
    requires forall p :: p in parts ==> ';' !in p
    ensures LastValue(parts, key).Some? ==> Carried(LastValue(parts, key).value)
  {
    if parts != [] {
      var part := parts[|parts| - 1];
      if '=' in part {
        var rest := part[IndexOf(part, '=') + 1..];
        StripFacts(rest);
        assert forall c :: c in rest ==> c in part;
      }
      ReadValuesAreCarried(parts[..|parts| - 1], key);
    }
  }

  lemma FieldsAreCarried(header: string, key: string)
    ensures Field(header, key).Some? ==> Carried(Field(header, key).value)
  {
    PartsHoldNoSeparator(header, ';');
    ReadValuesAreCarried(Split(header, ';'), key);
  }

  /** Parsing what was printed gives the trace id back if and only if it is canonical. */
  lemma RoundTrip(t: TraceId)
    ensures Parsed(Header(t)) == t <==> Canonical(t)
  {
    assert Header(t)[4] == '=';
    if Carried(t.root) && (t.parent.Some? ==> Carried(t.parent.value)) && Carried(t.sampled) {
      FieldOfHeader(t, "Root");
      FieldOfHeader(t, "Parent");
      FieldOfHeader(t, "Sampled");
    }
    FieldsAreCarried(Header(t), "Root");
    FieldsAreCarried(Header(t), "Parent");
    FieldsAreCarried(Header(t), "Sampled");
  }

  lemma RawIsCarriedIff(header: string)
    ensures Carried(Strip(header)) <==> ';' !in header
  {
    StripFacts(header);
    assert !IsSpace(';');
  }

  /** What parsing yields is canonical except in three cases. */
  lemma ParsedIsCanonicalIff(header: string)
    ensures Canonical(Parsed(header)) <==>
            && Field(header, "Parent") != Some("") && Field(header, "Sampled") != Some("")
            && !(IsRaw(header) && ';' in header)
  {
    FieldsAreCarried(header, "Root");
    FieldsAreCarried(header, "Parent");
    FieldsAreCarried(header, "Sampled");
    RawIsCarriedIff(header);
  }

  /**
   A header that came in survives being passed on, parsed and printed and parsed again, if and only if it
   names no empty parent, no empty sampling decision, and is no raw id with a ';' in it.
   */
  lemma PassingOnKeepsTheTrace(header: string)
    ensures Parsed(Header(Parsed(header))) == Parsed(header) <==>
            && Field(header, "Parent") != Some("") && Field(header, "Sampled") != Some("")
            && !(IsRaw(header) && ';' in header)
  {
    RoundTrip(Parsed(header));
    ParsedIsCanonicalIff(header);
  }

  /** Printing forgets nothing else: equal headers mean equal canonical trace ids. */
  lemma HeadersIdentifyTraces(t: TraceId, u: TraceId)
    requires Canonical(t) && Canonical(u)
    ensures Header(t) == Header(u) <==> t == u
  {
    RoundTrip(t);
    RoundTrip(u);
  }
}
