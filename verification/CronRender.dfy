/** Every schedule the parser can return is the parse of a specification that
    can be written down from it: writing and parsing are inverse. */
module CronRender {
  import opened Text
  import opened Decimal
  import opened CronSchedule
  import opened CronParser

  /** The members of `mask` from `low` to `high`, in decimal. */
  function Numerals(mask: Mask, low: nat, high: nat): seq<string>
    decreases mask, high + 1 - low
  {
    if low > high then []
    else (if low in mask then [Digits(low)] else []) + Numerals(mask, low + 1, high)
  }

  function RenderField(mask: Mask, f: FieldSpec, star: bool): string {
    if star then "*" else Join(Numerals(mask, f.min, f.max), ',')
  }

  function MaskOf(s: Schedule, k: nat): Mask
    requires k < 5
  {
    if k == 0 then s.minute else if k == 1 then s.hour else if k == 2 then s.dom
    else if k == 3 then s.month else s.dow
  }

  predicate StarOf(s: Schedule, k: nat) {
    (k == 2 && s.domStar) || (k == 4 && s.dowStar)
  }

  function RenderFields(s: Schedule): seq<string> {
    seq(5, k requires 0 <= k < 5 => RenderField(MaskOf(s, k), SpecOf(k), StarOf(s, k)))
  }

  function Render(s: Schedule): string { Join(RenderFields(s), ' ') }

  lemma {:induction false} NumeralsAre(mask: Mask, low: nat, high: nat)
    ensures forall p :: p in Numerals(mask, low, high) ==>
      exists v: nat :: v in mask && low <= v <= high && p == Digits(v)
    ensures forall v: nat :: v in mask && low <= v <= high ==> Digits(v) in Numerals(mask, low, high)
    decreases high + 1 - low
  {
    if low <= high {
      NumeralsAre(mask, low + 1, high);
    }
  }

  lemma DigitsPlain(v: nat, c: char)
    requires !IsDigit(c)
    ensures c !in Digits(v)
  {
  }

  lemma {:induction false} NumeralTerm(v: nat, f: FieldSpec)
    requires FieldOk(f) && f.min <= v <= f.max && (f.name == DAY_OF_WEEK ==> v != 7)
    ensures TermInterval(Digits(v), f) == Ok(Interval(v, v, 1))
    ensures TrimSpace(Digits(v)) == Digits(v) && IsWord(Digits(v))
  {
    var s := Digits(v);
    DigitsPlain(v, '/');
    DigitsPlain(v, '-');
    DigitsPlain(v, '*');
    assert IsDigit(s[0]) && IsDigit(s[|s| - 1]);
    TrimNothing(s);
    ValueOfDigits(v);
    assert Lower(s)[0] == LowerChar(s[0]) == s[0];
    assert Lower(s) !in f.names;
    assert ParseValue(s, f) == Ok(v);
  }

  lemma {:induction false} NumeralReads(p: string, v: nat, f: FieldSpec, w: nat)
    requires FieldOk(f) && f.min <= v <= f.max && (f.name == DAY_OF_WEEK ==> v != 7) && p == Digits(v)
    ensures Denotes(p, f, w) <==> w == v
  {
    NumeralTerm(v, f);
  }

  /** The numerals of a mask, joined by commas, read back as the mask. */
  lemma {:induction false} FieldReads(mask: Mask, f: FieldSpec)
    requires FieldOk(f) && Fits(mask, f) && (f.name == DAY_OF_WEEK ==> f.max < 7)
    ensures Reads(RenderField(mask, f, false), f, mask)
  {
    var ps := Numerals(mask, f.min, f.max);
    var field := RenderField(mask, f, false);
    NumeralsAre(mask, f.min, f.max);
    NumeralTerms(mask, f);
    forall k | 0 <= k < |ps| ensures TermInterval(ps[k], f).Ok? {
      assert ps[k] in ps;
      var v: nat :| v in mask && f.min <= v <= f.max && ps[k] == Digits(v);
      NumeralTerm(v, f);
    }
    forall w: nat ensures w in mask <==> Allows(field, f, w) {
      NumeralsAllow(mask, f, w);
    }
  }

  lemma {:induction false} NumeralTerms(mask: Mask, f: FieldSpec)
    requires FieldOk(f) && Fits(mask, f) && (f.name == DAY_OF_WEEK ==> f.max < 7)
    ensures Terms(RenderField(mask, f, false)) == Numerals(mask, f.min, f.max)
  {
    var ps := Numerals(mask, f.min, f.max);
    NumeralsAre(mask, f.min, f.max);
    var u :| u in mask;
    assert Digits(u) in ps;
    forall p | p in ps ensures ',' !in p && TrimSpace(p) == p {
      var v: nat :| v in mask && f.min <= v <= f.max && p == Digits(v);
      NumeralTerm(v, f);
      DigitsPlain(v, ',');
    }
    SplitOfJoin(ps, ',');
    assert forall k :: 0 <= k < |ps| ==> ps[k] in ps;
  }

  lemma {:induction false} NumeralsAllow(mask: Mask, f: FieldSpec, w: nat)
    requires FieldOk(f) && Fits(mask, f) && (f.name == DAY_OF_WEEK ==> f.max < 7)
    ensures w in mask <==> Allows(RenderField(mask, f, false), f, w)
  {
    var ps := Numerals(mask, f.min, f.max);
    NumeralsAre(mask, f.min, f.max);
    NumeralTerms(mask, f);
    if w in mask {
      assert Digits(w) in ps;
      var k :| 0 <= k < |ps| && ps[k] == Digits(w);
      NumeralReads(ps[k], w, f, w);
    }
    forall k | 0 <= k < |ps| && Denotes(ps[k], f, w) ensures w in mask {
      assert ps[k] in ps;
      var v: nat :| v in mask && f.min <= v <= f.max && ps[k] == Digits(v);
      NumeralReads(ps[k], v, f, w);
    }
  }

  lemma WordConcat(a: string, c: char, b: string)
    requires IsWord(a) && !IsSpace(c) && IsWord(b)
    ensures IsWord(a + [c] + b)
  {
  }

  lemma {:induction false} JoinPlain(parts: seq<string>, sep: char)
    requires parts != [] && !IsSpace(sep) && forall p :: p in parts ==> IsWord(p)
    ensures IsWord(Join(parts, sep)) && parts[0] <= Join(parts, sep)
  {
    assert parts[0] in parts;
    if |parts| > 1 {
      JoinPlain(parts[1..], sep);
      WordConcat(parts[0], sep, Join(parts[1..], sep));
    }
  }

  /** The text of a field is one word that starts with a digit or is a star. */
  ghost predicate FieldText(t: string) {
    IsWord(t) && (t == "*" || IsDigit(t[0]))
  }

  lemma {:induction false} RenderFieldText(mask: Mask, f: FieldSpec, star: bool)
    requires FieldOk(f) && Fits(mask, f) && (f.name == DAY_OF_WEEK ==> f.max < 7)
    ensures FieldText(RenderField(mask, f, star)) && (star <==> RenderField(mask, f, star) == "*")
  {
    if !star {
      var ps := Numerals(mask, f.min, f.max);
      NumeralsAre(mask, f.min, f.max);
      var u :| u in mask;
      assert Digits(u) in ps;
      forall p | p in ps ensures IsWord(p) && IsDigit(p[0]) {
        var v: nat :| v in mask && f.min <= v <= f.max && p == Digits(v);
        NumeralTerm(v, f);
      }
      JoinPlain(ps, ',');
      assert ps[0] in ps;
    }
  }

  lemma {:induction false} RenderReads(mask: Mask, f: FieldSpec, star: bool)
    requires FieldOk(f) && Fits(mask, f) && (f.name == DAY_OF_WEEK ==> f.max < 7) && (star ==> Full(mask, f))
    ensures Reads(RenderField(mask, f, star), f, mask)
  {
    if star {
      StarReads(f, mask);
    } else {
      FieldReads(mask, f);
    }
  }

  lemma {:induction false} EndsOfJoin(parts: seq<string>, sep: char)
    requires parts != [] && forall k :: 0 <= k < |parts| ==> FieldText(parts[k])
    ensures var s := Join(parts, sep);
      s != "" && (s[0] == '*' || IsDigit(s[0])) && !IsSpace(s[|s| - 1])
  {
    var p := parts[0];
    assert FieldText(p) && !IsSpace(p[|p| - 1]);
    if |parts| > 1 {
      EndsOfJoin(parts[1..], sep);
    }
  }

  lemma DescriptorsStart()
    ensures forall d :: d in DESCRIPTORS ==> d != "" && d[0] == '@'
  {
  }

  lemma LowerFirst(t: string)
    requires t != "" && (IsDigit(t[0]) || t[0] == '*')
    ensures Lower(t) != "" && Lower(t)[0] == t[0]
  {
    assert Lower(t)[0] == LowerChar(t[0]);
  }

  lemma NoDescriptor(t: string)
    requires t != "" && (IsDigit(t[0]) || t[0] == '*')
    ensures Lower(t) !in DESCRIPTORS && !(EVERY <= t)
  {
    LowerFirst(t);
    DescriptorsStart();
    assert EVERY[0] == '@';
  }

  lemma {:induction false} WordsBack(words: seq<string>)
    requires words != [] && forall k :: 0 <= k < |words| ==> FieldText(words[k])
    ensures var t := Join(words, ' ');
      !IsEvery(t) && FieldTexts(t) == words
  {
    var t := Join(words, ' ');
    EndsOfJoin(words, ' ');
    TrimNothing(t);
    NoDescriptor(t);
    WordsOfJoin(words);
  }

  /** `text` is a field that reads as `mask`, and a star where one is due. */
  ghost predicate Back(text: string, mask: Mask, f: FieldSpec, star: bool) {
    FieldText(text) && (star <==> text == "*") && Reads(text, f, mask)
  }

  lemma {:induction false} FieldBack(mask: Mask, f: FieldSpec, star: bool)
    requires FieldOk(f) && Fits(mask, f) && (f.name == DAY_OF_WEEK ==> f.max < 7) && (star ==> Full(mask, f))
    ensures Back(RenderField(mask, f, star), mask, f, star)
  {
    RenderFieldText(mask, f, star);
    RenderReads(mask, f, star);
  }

  lemma CanonicalAt(s: Schedule, k: nat)
    requires Canonical(s) && k < 5
    ensures Fits(MaskOf(s, k), SpecOf(k)) && (StarOf(s, k) ==> Full(MaskOf(s, k), SpecOf(k)))
  {
  }

  lemma {:induction false} AllBack(s: Schedule, words: seq<string>)
    requires |words| == 5 && s.every == 0
    requires forall k :: 0 <= k < 5 ==> Back(words[k], MaskOf(s, k), SpecOf(k), StarOf(s, k))
    ensures ReadsAll(words, s)
  {
    assert Back(words[0], s.minute, Minute(), false);
    assert Back(words[1], s.hour, Hour(), false);
    assert Back(words[2], s.dom, DayOfMonth(), s.domStar);
    assert Back(words[3], s.month, Month(), false);
    assert Back(words[4], s.dow, DayOfWeek(), s.dowStar);
  }

  /** Parsing what was written for `s` gives `s`: the parser's image is exactly
      the canonical schedules. */
  lemma {:induction false} RoundTrip(s: Schedule, duration: string -> Result<int>)
    requires Canonical(s)
    ensures Spells(Render(s), duration, s)
  {
    FieldsBack(s);
    AllBack(s, RenderFields(s));
    WordsBack(RenderFields(s));
  }

  lemma FieldsBack(s: Schedule)
    requires Canonical(s)
    ensures |RenderFields(s)| == 5
    ensures forall k :: 0 <= k < 5 ==> Back(RenderFields(s)[k], MaskOf(s, k), SpecOf(k), StarOf(s, k))
  {
    forall k | 0 <= k < 5 ensures Back(RenderFields(s)[k], MaskOf(s, k), SpecOf(k), StarOf(s, k)) {
      SpecsOk(k);
      CanonicalAt(s, k);
      FieldBack(MaskOf(s, k), SpecOf(k), StarOf(s, k));
    }
  }

  /** The same, through the parser itself. */
  method Rewrite(s: Schedule, duration: string -> Result<int>) returns (r: Schedule)
    requires Canonical(s)
    ensures r == s
  {
    var p := Parse(Render(s), duration);
    RoundTrip(s, duration);
    if p.Err? { assert false; }
    SpellsOne(Render(s), duration, s, p.value);
    r := p.value;
  }
}
