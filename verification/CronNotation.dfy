/** What cron notation means, written out: the names, the numbers each field takes, the
    forms of a term and the descriptors. */
module CronNotation {
  import opened Text
  import opened Decimal
  import opened CronSchedule
  import opened CronParser

  // --------------------------------------------------------------------- names

  /** `c` is the letter `l` in lower or upper case. Go also lower-cases the dotted
      capital I and the Kelvin sign to plain letters. */
  predicate SameLetter(c: char, l: char) {
    || c == l || ('a' <= l <= 'z' && c as int == l as int - 32)
    || (l == 'i' && c as int == 0x130) || (l == 'k' && c as int == 0x212A)
  }

  /** `text` is `name` in any mix of cases. */
  predicate SameText(text: string, name: string) {
    |text| == |name| && forall i :: 0 <= i < |name| ==> SameLetter(text[i], name[i])
  }

  predicate LowerCase(name: string) {
    forall i :: 0 <= i < |name| ==> 'a' <= name[i] <= 'z' || name[i] == '@'
  }

  lemma SameLetterIff(c: char, l: char)
    requires 'a' <= l <= 'z' || l == '@'
    ensures SameLetter(c, l) <==> LowerChar(c) == l
  {
  }

  lemma SameTextIff(text: string, name: string)
    requires LowerCase(name)
    ensures SameText(text, name) <==> Lower(text) == name
  {
    if |text| == |name| {
      forall i | 0 <= i < |name| ensures SameLetter(text[i], name[i]) <==> Lower(text)[i] == name[i] {
        SameLetterIff(text[i], name[i]);
      }
    }
  }

  const MONTHS := ["jan", "feb", "mar", "apr", "may", "jun", "jul", "aug", "sep", "oct", "nov", "dec"]

  const DAYS := ["sun", "mon", "tue", "wed", "thu", "fri", "sat"]

  lemma DayNamed(k: nat)
    requires k < 7
    ensures LowerCase(DAYS[k]) && DAYS[k] in DAY_NAMES && DAY_NAMES[DAYS[k]] == k
  {
  }

  lemma MonthNamed(k: nat)
    requires k < 12
    ensures LowerCase(MONTHS[k]) && MONTHS[k] in MONTH_NAMES && MONTH_NAMES[MONTHS[k]] == k + 1
  {
  }

  lemma DayNamesAre(name: string)
    requires name in DAY_NAMES
    ensures exists k :: 0 <= k < 7 && DAYS[k] == name
  {
    assert DAYS[0] == "sun" && DAYS[1] == "mon" && DAYS[2] == "tue" && DAYS[3] == "wed" && DAYS[4] == "thu";
    assert DAYS[5] == "fri" && DAYS[6] == "sat";
  }

  lemma MonthNamesAre(name: string)
    requires name in MONTH_NAMES
    ensures exists k :: 0 <= k < 12 && MONTHS[k] == name
  {
    assert MONTHS[0] == "jan" && MONTHS[1] == "feb" && MONTHS[2] == "mar" && MONTHS[3] == "apr" && MONTHS[4] == "may";
    assert MONTHS[5] == "jun" && MONTHS[6] == "jul" && MONTHS[7] == "aug" && MONTHS[8] == "sep" && MONTHS[9] == "oct";
    assert MONTHS[10] == "nov" && MONTHS[11] == "dec";
  }

  /** `text` is a number, in decimal and of 32 bits. */
  predicate IsNumber(text: string, n: nat) {
    text != "" && AllDigits(text) && Value(text) == n && n <= 0xFFFF_FFFF
  }

  /** A day of the week is one of seven names in any case, Sunday being 0, or a number up
      to 6, or 7 for Sunday; white space around it does not count. Nothing else is. */
  lemma {:induction false} DayOfWeekIff(text: string, v: nat)
    ensures ParseValue(text, DayOfWeek()) == Ok(v) <==>
      || (v < 7 && SameText(TrimSpace(text), DAYS[v]))
      || (v < 7 && IsNumber(TrimSpace(text), v)) || (v == 0 && IsNumber(TrimSpace(text), 7))
  {
    var s := TrimSpace(text);
    if Lower(s) in DAY_NAMES {
      DayNamesAre(Lower(s));
      var k :| 0 <= k < 7 && DAYS[k] == Lower(s);
      DayNamed(k);
      NamesNoNumber(s, DAYS[k]);
      if v < 7 {
        DayNamed(v);
        SameTextIff(s, DAYS[v]);
      }
    } else if v < 7 {
      DayNamed(v);
      SameTextIff(s, DAYS[v]);
    }
  }

  lemma NamesNoNumber(s: string, name: string)
    requires Lower(s) == name && LowerCase(name) && name != ""
    ensures forall n :: !IsNumber(s, n)
  {
    assert LowerChar(s[0]) == name[0];
  }

  lemma {:induction false} MonthByName(s: string, v: nat)
    ensures Lower(s) in MONTH_NAMES && MONTH_NAMES[Lower(s)] == v <==> 1 <= v <= 12 && SameText(s, MONTHS[v - 1])
  {
    if Lower(s) in MONTH_NAMES {
      MonthNamesAre(Lower(s));
      var k :| 0 <= k < 12 && MONTHS[k] == Lower(s);
      MonthNamed(k);
    }
    if 1 <= v <= 12 {
      MonthNamed(v - 1);
      SameTextIff(s, MONTHS[v - 1]);
    }
  }

  /** A month is one of twelve names in any case, or a number from 1 to 12. */
  lemma {:induction false} MonthIff(text: string, v: nat)
    ensures ParseValue(text, Month()) == Ok(v) <==>
      1 <= v <= 12 && (SameText(TrimSpace(text), MONTHS[v - 1]) || IsNumber(TrimSpace(text), v))
  {
    var s := TrimSpace(text);
    MonthByName(s, v);
    if Lower(s) in MONTH_NAMES {
      MonthsOk();
      NameStarts(s);
    }
  }

  lemma NameStarts(s: string)
    requires Lower(s) != "" && !IsDigit(Lower(s)[0])
    ensures forall n :: !IsNumber(s, n)
  {
    assert Lower(s)[0] == LowerChar(s[0]);
  }

  /** The other fields take numbers only: minutes to 59, hours to 23, days from 1 to 31. */
  lemma {:induction false} NumberIff(text: string, v: nat)
    ensures ParseValue(text, Minute()) == Ok(v) <==> v <= 59 && IsNumber(TrimSpace(text), v)
    ensures ParseValue(text, Hour()) == Ok(v) <==> v <= 23 && IsNumber(TrimSpace(text), v)
    ensures ParseValue(text, DayOfMonth()) == Ok(v) <==> 1 <= v <= 31 && IsNumber(TrimSpace(text), v)
  {
  }

  /** So a name and its numeral read alike. */
  lemma {:induction false} NamesAsNumerals(k: nat)
    ensures k < 7 ==> ParseValue(DAYS[k], DayOfWeek()) == ParseValue(Digits(k), DayOfWeek()) == Ok(k)
    ensures k < 12 ==> ParseValue(MONTHS[k], Month()) == ParseValue(Digits(k + 1), Month()) == Ok(k + 1)
  {
    if k < 12 {
      NumeralIs(k + 1);
      MonthIff(Digits(k + 1), k + 1);
      MonthNamed(k);
      NameIs(MONTHS[k]);
      MonthIff(MONTHS[k], k + 1);
    }
    if k < 7 {
      NumeralIs(k);
      DayOfWeekIff(Digits(k), k);
      DayNamed(k);
      NameIs(DAYS[k]);
      DayOfWeekIff(DAYS[k], k);
    }
  }

  lemma NumeralIs(n: nat)
    requires n <= 0xFFFF_FFFF
    ensures TrimSpace(Digits(n)) == Digits(n) && IsNumber(Digits(n), n)
  {
    var s := Digits(n);
    assert IsDigit(s[0]) && IsDigit(s[|s| - 1]);
    TrimNothing(s);
    ValueOfDigits(n);
  }

  lemma NameIs(name: string)
    requires LowerCase(name)
    ensures TrimSpace(name) == name && SameText(name, name)
  {
    TrimNothing(name);
  }

  // --------------------------------------------------------------------- terms

  /** Letters and digits only. */
  predicate IsToken(t: string) {
    t != "" && forall i :: 0 <= i < |t| ==> '0' <= t[i] <= '9' || 'a' <= t[i] <= 'z' || 'A' <= t[i] <= 'Z'
  }

  predicate Stepped(v: nat, low: nat, high: nat, n: nat)
    requires n > 0
  {
    low <= v <= high && (v - low) % n == 0
  }

  /** The values from `low` to `high` in steps of `n`. */
  function Steps(low: nat, high: nat, n: nat): Mask
    requires n > 0
  {
    set v: nat | v <= high && Stepped(v, low, high, n)
  }

  /** No white space and no comma: a field of one term. */
  predicate IsSingle(text: string) {
    forall i :: 0 <= i < |text| ==> !IsSpace(text[i]) && text[i] != ','
  }

  lemma TokenSingle(t: string)
    requires IsToken(t)
    ensures IsSingle(t) && '-' !in t && '/' !in t && '*' !in t
  {
  }

  lemma SingleTerms(text: string)
    requires IsSingle(text)
    ensures Terms(text) == [text]
  {
    TrimNothing(text);
    assert ',' !in text;
  }

  lemma SingleAllows(text: string, f: FieldSpec, v: nat)
    requires IsSingle(text)
    ensures Allows(text, f, v) <==> Denotes(text, f, v)
  {
    SingleTerms(text);
    if Denotes(text, f, v) { assert Denotes(Terms(text)[0], f, v); }
  }

  /** A field of one term reads as what the term stands for. */
  lemma {:induction false} SingleReads(text: string, f: FieldSpec, i: Interval, mask: Mask)
    requires FieldOk(f) && IsSingle(text) && TermInterval(text, f) == Ok(i)
    ensures Reads(text, f, mask) <==> mask == Steps(i.low, i.high, i.step)
  {
    SingleTerms(text);
    assert GoodField(text, f);
    forall v: nat ensures Allows(text, f, v) <==> v in Steps(i.low, i.high, i.step) {
      SingleAllows(text, f, v);
      assert Stepped(v, i.low, i.high, i.step) <==> In(i, v);
    }
  }

  lemma SingleRefused(text: string, f: FieldSpec, mask: Mask)
    requires IsSingle(text) && TermInterval(text, f).Err?
    ensures !Reads(text, f, mask)
  {
    SingleTerms(text);
    assert !TermInterval(Terms(text)[0], f).Ok?;
  }

  // What the bodies of terms stand for, in steps of `n`.

  lemma {:induction false} RangeBody(a: string, b: string, n: nat, f: FieldSpec, low: nat, high: nat)
    requires IsToken(a) && IsToken(b) && ParseValue(a, f) == Ok(low) && ParseValue(b, f) == Ok(high)
    ensures BodyInterval(a + "-" + b, n, f) == if low <= high then Ok(Interval(low, high, n)) else Err(Inverted)
  {
    TokenSingle(a);
    CutAt(a, '-', b);
    assert (a + "-" + b)[|a|] == '-';
  }

  lemma ValueBody(a: string, n: nat, f: FieldSpec, v: nat)
    requires IsToken(a) && ParseValue(a, f) == Ok(v)
    ensures BodyInterval(a, n, f) == Ok(Interval(v, if n > 1 then f.max else v, n))
  {
    TokenSingle(a);
  }

  lemma {:induction false} PlainTerm(body: string, f: FieldSpec)
    requires '/' !in body
    ensures TermInterval(body, f) == BodyInterval(body, 1, f)
  {
  }

  lemma {:induction false} SteppedTerm(body: string, step: string, n: nat, f: FieldSpec)
    requires '/' !in body && IsNumber(step, n) && n > 0
    ensures TermInterval(body + "/" + step, f) == BodyInterval(body, n, f)
  {
    CutAt(body, '/', step);
  }

  lemma SingleConcat(a: string, c: char, b: string)
    requires IsSingle(a) && IsSingle(b) && !IsSpace(c) && c != ','
    ensures IsSingle(a + [c] + b)
  {
  }

  lemma NumberSingle(step: string, n: nat)
    requires IsNumber(step, n)
    ensures IsSingle(step)
  {
    assert forall i :: 0 <= i < |step| ==> IsDigit(step[i]);
  }

  // What the forms of a field of one term mean. `a` and `b` are any texts the field takes
  // for values, names included.

  /** A value alone. */
  lemma {:induction false} ReadsValue(a: string, f: FieldSpec, v: nat, mask: Mask)
    requires FieldOk(f) && IsToken(a) && ParseValue(a, f) == Ok(v)
    ensures Reads(a, f, mask) <==> mask == {v}
  {
    TokenSingle(a);
    PlainTerm(a, f);
    ValueBody(a, 1, f, v);
    SingleReads(a, f, Interval(v, v, 1), mask);
    OneValue(v);
  }

  /** `a-b`, which must not descend. */
  lemma {:induction false} ReadsRange(a: string, b: string, f: FieldSpec, low: nat, high: nat, mask: Mask)
    requires FieldOk(f) && IsToken(a) && IsToken(b) && ParseValue(a, f) == Ok(low) && ParseValue(b, f) == Ok(high)
    ensures Reads(a + "-" + b, f, mask) <==> low <= high && mask == Steps(low, high, 1)
  {
    var text := a + "-" + b;
    TokenSingle(a);
    TokenSingle(b);
    SingleConcat(a, '-', b);
    PlainTerm(text, f);
    RangeBody(a, b, 1, f, low, high);
    if low <= high {
      SingleReads(text, f, Interval(low, high, 1), mask);
    } else {
      SingleRefused(text, f, mask);
    }
  }

  /** `a-b/n`. */
  lemma {:induction false} ReadsRangeStep(a: string, b: string, step: string, n: nat, f: FieldSpec, low: nat, high: nat,
                                          mask: Mask)
    requires FieldOk(f) && IsToken(a) && IsToken(b) && ParseValue(a, f) == Ok(low) && ParseValue(b, f) == Ok(high)
    requires IsNumber(step, n) && n > 0
    ensures Reads(a + "-" + b + "/" + step, f, mask) <==> low <= high && mask == Steps(low, high, n)
  {
    var body := a + "-" + b;
    var text := body + "/" + step;
    TokenSingle(a);
    TokenSingle(b);
    SingleConcat(a, '-', b);
    NumberSingle(step, n);
    SingleConcat(body, '/', step);
    SteppedTerm(body, step, n, f);
    RangeBody(a, b, n, f, low, high);
    if low <= high {
      SingleReads(text, f, Interval(low, high, n), mask);
    } else {
      SingleRefused(text, f, mask);
    }
  }

  /** `a/n`: from `a` to the end of the range, unless the step is 1. */
  lemma {:induction false} ReadsOpenStep(a: string, step: string, n: nat, f: FieldSpec, v: nat, mask: Mask)
    requires FieldOk(f) && IsToken(a) && ParseValue(a, f) == Ok(v) && IsNumber(step, n) && n > 0
    ensures Reads(a + "/" + step, f, mask) <==> mask == if n > 1 then Steps(v, f.max, n) else {v}
  {
    TokenSingle(a);
    NumberSingle(step, n);
    SingleConcat(a, '/', step);
    SteppedTerm(a, step, n, f);
    ValueBody(a, n, f, v);
    if n > 1 {
      SingleReads(a + "/" + step, f, Interval(v, f.max, n), mask);
    } else {
      SingleReads(a + "/" + step, f, Interval(v, v, n), mask);
      OneValue(v);
    }
  }

  lemma OneValue(v: nat)
    ensures Steps(v, v, 1) == {v}
  {
    assert Stepped(v, v, v, 1);
  }

  /** `*` and, with a step, every `n`-th value from the lowest on. */
  lemma {:induction false} ReadsStar(step: string, n: nat, f: FieldSpec, mask: Mask)
    requires FieldOk(f) && IsNumber(step, n) && n > 0
    ensures Reads("*", f, mask) <==> mask == Steps(f.min, f.max, 1)
    ensures Reads("*/" + step, f, mask) <==> mask == Steps(f.min, f.max, n)
  {
    PlainTerm("*", f);
    SingleReads("*", f, Interval(f.min, f.max, 1), mask);
    NumberSingle(step, n);
    SingleConcat("*", '/', step);
    assert "*" + "/" + step == "*/" + step;
    SteppedTerm("*", step, n, f);
    SingleReads("*/" + step, f, Interval(f.min, f.max, n), mask);
  }

  // --------------------------------------------------------------------- lists

  lemma {:induction false} JoinConcat(p: seq<string>, q: seq<string>, sep: char)
    requires p != [] && q != []
    ensures Join(p + q, sep) == Join(p, sep) + [sep] + Join(q, sep)
  {
    if |p| == 1 {
      assert (p + q)[1..] == q;
    } else {
      JoinConcat(p[1..], q, sep);
      assert (p + q)[1..] == p[1..] + q;
    }
  }

  lemma {:induction false} SplitConcat(x: string, y: string, sep: char)
    ensures Split(x + [sep] + y, sep) == Split(x, sep) + Split(y, sep)
  {
    var p, q := Split(x, sep), Split(y, sep);
    JoinOfSplit(x, sep);
    JoinOfSplit(y, sep);
    JoinConcat(p, q, sep);
    SplitOfJoin(p + q, sep);
  }

  lemma TermsConcat(x: string, y: string)
    ensures Terms(x + "," + y) == Terms(x) + Terms(y)
  {
    SplitConcat(x, y, ',');
  }

  /** Some of the terms denotes `v`. */
  ghost predicate SomeTerm(terms: seq<string>, f: FieldSpec, v: nat) {
    exists k :: 0 <= k < |terms| && Denotes(terms[k], f, v)
  }

  lemma SomeConcat(p: seq<string>, q: seq<string>, f: FieldSpec, v: nat)
    ensures SomeTerm(p + q, f, v) <==> SomeTerm(p, f, v) || SomeTerm(q, f, v)
  {
    if SomeTerm(p, f, v) {
      var k :| 0 <= k < |p| && Denotes(p[k], f, v);
      assert Denotes((p + q)[k], f, v);
    }
    if SomeTerm(q, f, v) {
      var k :| 0 <= k < |q| && Denotes(q[k], f, v);
      assert Denotes((p + q)[|p| + k], f, v);
    }
  }

  lemma AllowsIff(field: string, terms: seq<string>, f: FieldSpec, v: nat)
    requires terms == Terms(field)
    ensures Allows(field, f, v) <==> SomeTerm(terms, f, v)
  {
  }

  lemma {:induction false} ListAllows(x: string, y: string, f: FieldSpec, v: nat)
    ensures Allows(x + "," + y, f, v) <==> Allows(x, f, v) || Allows(y, f, v)
  {
    TermsConcat(x, y);
    AllowsIff(x, Terms(x), f, v);
    AllowsIff(y, Terms(y), f, v);
    AllowsIff(x + "," + y, Terms(x) + Terms(y), f, v);
    SomeConcat(Terms(x), Terms(y), f, v);
  }

  lemma {:induction false} ListGood(x: string, y: string, f: FieldSpec)
    ensures GoodField(x + "," + y, f) <==> GoodField(x, f) && GoodField(y, f)
  {
    TermsConcat(x, y);
    GoodConcat(Terms(x), Terms(y), f);
  }

  lemma GoodConcat(p: seq<string>, q: seq<string>, f: FieldSpec)
    ensures (forall k :: 0 <= k < |p + q| ==> TermInterval((p + q)[k], f).Ok?) <==>
      (forall k :: 0 <= k < |p| ==> TermInterval(p[k], f).Ok?)
      && forall k :: 0 <= k < |q| ==> TermInterval(q[k], f).Ok?
  {
    assert forall k :: 0 <= k < |p| ==> (p + q)[k] == p[k];
    assert forall k :: 0 <= k < |q| ==> (p + q)[|p| + k] == q[k];
  }

  /** A list allows what its parts allow, and is refused if one of them is. */
  lemma {:induction false} ReadsList(x: string, y: string, f: FieldSpec, mask: Mask)
    ensures Reads(x + "," + y, f, mask) <==>
      && GoodField(x, f) && GoodField(y, f)
      && forall v: nat :: v in mask <==> Allows(x, f, v) || Allows(y, f, v)
  {
    ListGood(x, y, f);
    forall v: nat ensures Allows(x + "," + y, f, v) <==> Allows(x, f, v) || Allows(y, f, v) {
      ListAllows(x, y, f, v);
    }
  }

  // --------------------------------------------------------------- descriptors

  /** What `*`, `0` and `1` stand for in field `k`. */
  function PlainMask(k: nat, text: string): Mask
    requires k < 5
  {
    if text == "*" then Steps(SpecOf(k).min, SpecOf(k).max, 1) else if text == "0" then {0} else {1}
  }

  predicate IsPlain(k: nat, text: string) {
    text == "*" || text == "1" || (text == "0" && (k < 2 || k == 4))
  }

  lemma {:induction false} PlainReads(k: nat, text: string, mask: Mask)
    requires k < 5 && IsPlain(k, text)
    ensures Reads(text, SpecOf(k), mask) <==> mask == PlainMask(k, text)
  {
    SpecsOk(k);
    OneDigit('0');
    OneDigit('1');
    if text == "*" {
      ReadsStar("1", 1, SpecOf(k), mask);
    } else {
      var v := if text == "0" then 0 else 1;
      PlainValue(k, text, v);
      ReadsValue(text, SpecOf(k), v, mask);
    }
  }

  lemma PlainValue(k: nat, text: string, v: nat)
    requires k < 5 && IsPlain(k, text) && ((text == "0" && v == 0) || (text == "1" && v == 1))
    ensures ParseValue(text, SpecOf(k)) == Ok(v)
  {
    OneDigit(text[0]);
    assert IsNumber(text, v) && TrimSpace(text) == text;
    NumberIff(text, v);
    DayOfWeekIff(text, v);
    if k == 3 { MonthIff(text, v); }
  }

  lemma {:induction false} PlainFields(a: string, b: string, c: string, d: string, e: string, s: Schedule)
    requires IsPlain(0, a) && IsPlain(1, b) && IsPlain(2, c) && IsPlain(3, d) && IsPlain(4, e)
    ensures ReadsAll([a, b, c, d, e], s) <==>
      s == Schedule(PlainMask(0, a), PlainMask(1, b), PlainMask(2, c), PlainMask(3, d), PlainMask(4, e),
                    c == "*", e == "*", 0)
  {
    PlainReads(0, a, s.minute);
    PlainReads(1, b, s.hour);
    PlainReads(2, c, s.dom);
    PlainReads(3, d, s.month);
    PlainReads(4, e, s.dow);
  }

  /** `spec` is the descriptor `name`, in any case and with white space around it. */
  predicate IsDescriptor(spec: string, name: string) {
    LowerCase(name) && SameText(TrimSpace(spec), name)
  }

  lemma {:induction false} DescriptorFields(spec: string, name: string)
    requires IsDescriptor(spec, name) && name in DESCRIPTORS && |name| > 1 && name[1] != 'e'
    ensures !IsEvery(spec) && FieldTexts(spec) == Words(DESCRIPTORS[name])
  {
    var t := TrimSpace(spec);
    SameTextIff(t, name);
    assert SameLetter(t[1], name[1]);
    assert EVERY[1] == 'e';
  }

  lemma JoinFive(a: string, b: string, c: string, d: string, e: string)
    ensures Join([a, b, c, d, e], ' ') == a + " " + b + " " + c + " " + d + " " + e
  {
    assert [a, b, c, d, e][1..] == [b, c, d, e] && [b, c, d, e][1..] == [c, d, e] && [c, d, e][1..] == [d, e];
    assert [d, e][1..] == [e];
    assert Join([d, e], ' ') == d + " " + e;
    assert Join([c, d, e], ' ') == c + " " + d + " " + e;
    assert Join([b, c, d, e], ' ') == b + " " + c + " " + d + " " + e;
  }

  lemma WordsFive(a: string, b: string, c: string, d: string, e: string)
    requires IsWord(a) && IsWord(b) && IsWord(c) && IsWord(d) && IsWord(e)
    ensures Words(a + " " + b + " " + c + " " + d + " " + e) == [a, b, c, d, e]
  {
    JoinFive(a, b, c, d, e);
    WordsOfJoin([a, b, c, d, e]);
  }

  lemma {:induction false} DescriptorMeans(spec: string, name: string, a: string, b: string, c: string, d: string,
                                           e: string, duration: string -> Result<int>, s: Schedule)
    requires IsDescriptor(spec, name) && name in DESCRIPTORS && |name| > 1 && name[1] != 'e'
    requires DESCRIPTORS[name] == a + " " + b + " " + c + " " + d + " " + e
    requires IsPlain(0, a) && IsPlain(1, b) && IsPlain(2, c) && IsPlain(3, d) && IsPlain(4, e)
    ensures Spells(spec, duration, s) <==>
      s == Schedule(PlainMask(0, a), PlainMask(1, b), PlainMask(2, c), PlainMask(3, d), PlainMask(4, e),
                    c == "*", e == "*", 0)
  {
    WordsFive(a, b, c, d, e);
    DescriptorSpells(spec, name, [a, b, c, d, e], duration, s);
    PlainFields(a, b, c, d, e, s);
  }

  lemma DescriptorSpells(spec: string, name: string, w: seq<string>, duration: string -> Result<int>, s: Schedule)
    requires IsDescriptor(spec, name) && name in DESCRIPTORS && |name| > 1 && name[1] != 'e'
    requires Words(DESCRIPTORS[name]) == w
    ensures Spells(spec, duration, s) <==> ReadsAll(w, s)
  {
    DescriptorFields(spec, name);
  }

  /** Midnight of 1 January. */
  lemma {:induction false} Yearly(spec: string, duration: string -> Result<int>, s: Schedule)
    requires IsDescriptor(spec, "@yearly")
    ensures Spells(spec, duration, s) <==>
      s == Schedule({0}, {0}, {1}, {1}, Steps(0, 6, 1), false, true, 0)
  {
    DescriptorMeans(spec, "@yearly", "0", "0", "1", "1", "*", duration, s);
  }

  /** The same. */
  lemma {:induction false} Annually(spec: string, duration: string -> Result<int>, s: Schedule)
    requires IsDescriptor(spec, "@annually")
    ensures Spells(spec, duration, s) <==>
      s == Schedule({0}, {0}, {1}, {1}, Steps(0, 6, 1), false, true, 0)
  {
    DescriptorMeans(spec, "@annually", "0", "0", "1", "1", "*", duration, s);
  }

  /** Midnight of the first of every month. */
  lemma {:induction false} Monthly(spec: string, duration: string -> Result<int>, s: Schedule)
    requires IsDescriptor(spec, "@monthly")
    ensures Spells(spec, duration, s) <==>
      s == Schedule({0}, {0}, {1}, Steps(1, 12, 1), Steps(0, 6, 1), false, true, 0)
  {
    DescriptorMeans(spec, "@monthly", "0", "0", "1", "*", "*", duration, s);
  }

  /** Midnight of every Sunday. */
  lemma {:induction false} Weekly(spec: string, duration: string -> Result<int>, s: Schedule)
    requires IsDescriptor(spec, "@weekly")
    ensures Spells(spec, duration, s) <==>
      s == Schedule({0}, {0}, Steps(1, 31, 1), Steps(1, 12, 1), {0}, true, false, 0)
  {
    DescriptorMeans(spec, "@weekly", "0", "0", "*", "*", "0", duration, s);
  }

  /** Every midnight. */
  lemma {:induction false} Daily(spec: string, duration: string -> Result<int>, s: Schedule)
    requires IsDescriptor(spec, "@daily")
    ensures Spells(spec, duration, s) <==>
      s == Schedule({0}, {0}, Steps(1, 31, 1), Steps(1, 12, 1), Steps(0, 6, 1), true, true, 0)
  {
    DescriptorMeans(spec, "@daily", "0", "0", "*", "*", "*", duration, s);
  }

  /** The same. */
  lemma {:induction false} Midnight(spec: string, duration: string -> Result<int>, s: Schedule)
    requires IsDescriptor(spec, "@midnight")
    ensures Spells(spec, duration, s) <==>
      s == Schedule({0}, {0}, Steps(1, 31, 1), Steps(1, 12, 1), Steps(0, 6, 1), true, true, 0)
  {
    DescriptorMeans(spec, "@midnight", "0", "0", "*", "*", "*", duration, s);
  }

  /** Every full hour. */
  lemma {:induction false} Hourly(spec: string, duration: string -> Result<int>, s: Schedule)
    requires IsDescriptor(spec, "@hourly")
    ensures Spells(spec, duration, s) <==>
      s == Schedule({0}, Steps(0, 23, 1), Steps(1, 31, 1), Steps(1, 12, 1), Steps(0, 6, 1), true, true, 0)
  {
    DescriptorMeans(spec, "@hourly", "0", "*", "*", "*", "*", duration, s);
  }

  /** `@every d` repeats with the period that `d` reads as, which must be positive. */
  lemma {:induction false} Every(d: string, duration: string -> Result<int>, s: Schedule)
    requires d != "" && !IsSpace(d[|d| - 1])
    ensures Spells("@every " + d, duration, s) <==>
      duration(TrimSpace(d)).Ok? && duration(TrimSpace(d)).value > 0
      && s == Schedule({}, {}, {}, {}, {}, false, false, duration(TrimSpace(d)).value)
  {
    var spec := "@every " + d;
    assert spec[0] == '@' && spec[|spec| - 1] == d[|d| - 1];
    TrimNothing(spec);
    assert spec[|EVERY|..] == d;
  }
}
