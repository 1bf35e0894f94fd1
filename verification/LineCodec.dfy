/** A line format that meets what the tailer relies on: such formats exist. */
module LineCodec {
  import opened Options
  import opened Strings
  import opened Decimals
  import opened EngineRunState
  import opened LiveProgress

  function Fields(s: EngineSample): seq<string> { [Digits(s.number), Digits(s.ops), Digits(s.bs)] }

  function Encode(s: EngineSample): string { "{" + Join(Fields(s), ',') + "}" }

  predicate AllDigits(s: string) { s != "" && forall i :: 0 <= i < |s| ==> IsDigit(s[i]) }

  function Decode(text: string): Option<EngineSample> {
    if |text| < 2 || text[0] != '{' || text[|text| - 1] != '}' then None
    else
      var parts := Split(text[1..|text| - 1], ',');
      if |parts| == 3 && AllDigits(parts[0]) && AllDigits(parts[1]) && AllDigits(parts[2])
      then Some(EngineSample(Value(parts[0]), Value(parts[1]), Value(parts[2])))
      else None
  }

  lemma DigitsWithoutComma(n: nat)
    ensures ',' !in Digits(n) && AllDigits(Digits(n))
  {
  }

  lemma DecodeEncode(s: EngineSample)
    ensures Decode(Encode(s)) == Some(s)
  {
    var line := Encode(s);
    assert line[1..|line| - 1] == Join(Fields(s), ',');
    DigitsWithoutComma(s.number);
    DigitsWithoutComma(s.ops);
    DigitsWithoutComma(s.bs);
    SplitJoin(Fields(s), ',');
    ValueOfDigits(s.number);
    ValueOfDigits(s.ops);
    ValueOfDigits(s.bs);
  }

  /** What a line consists of. */
  predicate Plain(c: char) { IsDigit(c) || c == ',' }

  lemma JoinIsPlain(s: EngineSample)
    ensures forall i :: 0 <= i < |Join(Fields(s), ',')| ==> Plain(Join(Fields(s), ',')[i])
  {
    var fields := Fields(s);
    var two := [Digits(s.ops), Digits(s.bs)];
    assert fields[1..] == two && two[1..] == [Digits(s.bs)];
    assert Join([Digits(s.bs)], ',') == Digits(s.bs);
    assert Join(two, ',') == Digits(s.ops) + [','] + Digits(s.bs);
    assert Join(fields, ',') == Digits(s.number) + [','] + Join(two, ',');
  }

  lemma EncodeShape(s: EngineSample)
    ensures |Encode(s)| >= 2 && Encode(s)[0] == '{' && Encode(s)[|Encode(s)| - 1] == '}'
    ensures forall i :: 0 < i < |Encode(s)| - 1 ==> Plain(Encode(s)[i])
  {
    JoinIsPlain(s);
    var inner := Join(Fields(s), ',');
    assert forall i :: 0 < i < |Encode(s)| - 1 ==> Encode(s)[i] == inner[i - 1];
  }

  lemma CutIsUndecodable(s: EngineSample, n: nat)
    requires 0 < n < |Encode(s)|
    ensures Decode(TrimSpace(Encode(s)[..n])) == None
  {
    EncodeShape(s);
    var cut := Encode(s)[..n];
    assert cut[0] == '{' && (n > 1 ==> Plain(cut[n - 1]));
    TrimmedFixed(cut);
  }

  lemma LineIsOne(s: EngineSample)
    ensures OneLine(Encode(s))
  {
    EncodeShape(s);
    assert forall i :: 0 <= i < |Encode(s)| ==> Encode(s)[i] != '\n';
  }

  lemma EncodeIsLawful(s: EngineSample)
    ensures LawfulAt(Codec(Encode, Decode), s)
  {
    hide Encode, Decode;
    DecodeEncode(s);
    LineIsOne(s);
    forall n | 0 < n < |Encode(s)| ensures Undecodable(Codec(Encode, Decode), Encode(s)[..n]) {
      CutIsUndecodable(s, n);
    }
  }

  /** Printing fields in braces is lawful. */
  lemma LawfulCodecExists()
    ensures Lawful(Codec(Encode, Decode))
  {
    forall s { EncodeIsLawful(s); }
  }
}
