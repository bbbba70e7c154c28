/** Parsing a cron specification into field masks (internal/cron/cron.go). */
module CronParser {
  import opened Text
  import opened Decimal
  import opened CronSchedule
  import opened CronLiveness

  datatype ParseError =
    | EmptySpecification | BadDuration | NotPositive | WrongFieldCount
    | EmptyTerm | BadStep | Inverted | BadValue | OutOfRange

  datatype Result<T> = Ok(value: T) | Err(error: ParseError)

  datatype FieldSpec = FieldSpec(name: string, min: nat, max: nat, names: map<string, nat>)

  const MONTH_NAMES: map<string, nat> := map[
    "jan" := 1, "feb" := 2, "mar" := 3, "apr" := 4, "may" := 5, "jun" := 6,
    "jul" := 7, "aug" := 8, "sep" := 9, "oct" := 10, "nov" := 11, "dec" := 12]

  const DAY_NAMES: map<string, nat> := map[
    "sun" := 0, "mon" := 1, "tue" := 2, "wed" := 3, "thu" := 4, "fri" := 5, "sat" := 6]

  const DESCRIPTORS: map<string, string> := map[
    "@yearly" := "0 0 1 1 *", "@annually" := "0 0 1 1 *", "@monthly" := "0 0 1 * *",
    "@weekly" := "0 0 * * 0", "@daily" := "0 0 * * *", "@midnight" := "0 0 * * *",
    "@hourly" := "0 * * * *"]

  const DAY_OF_WEEK := "day of week"

  function Minute(): FieldSpec { FieldSpec("minute", 0, 59, map[]) }
  function Hour(): FieldSpec { FieldSpec("hour", 0, 23, map[]) }
  function DayOfMonth(): FieldSpec { FieldSpec("day of month", 1, 31, map[]) }
  function Month(): FieldSpec { FieldSpec("month", 1, 12, MONTH_NAMES) }
  function DayOfWeek(): FieldSpec { FieldSpec(DAY_OF_WEEK, 0, 6, DAY_NAMES) }

  /** The range fits a mask and every name stands for a value in it. */
  ghost predicate FieldOk(f: FieldSpec) {
    && f.min <= f.max <= 63
    && (f.name == DAY_OF_WEEK ==> f.min == 0)
    && forall n :: n in f.names ==> f.min <= f.names[n] <= f.max && n != "" && !IsDigit(n[0])
  }

  lemma MonthsOk()
    ensures FieldOk(Month())
  {
    forall n | n in MONTH_NAMES
      ensures 1 <= MONTH_NAMES[n] <= 12 && n != "" && !IsDigit(n[0])
    {
    }
  }

  lemma DaysOk()
    ensures FieldOk(DayOfWeek())
  {
    forall n | n in DAY_NAMES
      ensures DAY_NAMES[n] <= 6 && n != "" && !IsDigit(n[0])
    {
    }
  }

  const UINT32_MAX := 0xFFFF_FFFF

  /** `strconv.ParseUint(s, 10, 32)`. */
  function ParseUint(s: string): Result<nat> {
    if s != "" && AllDigits(s) && Value(s) <= UINT32_MAX then Ok(Value(s)) else Err(BadValue)
  }

  function ParseValue(text: string, f: FieldSpec): (r: Result<nat>)
    ensures r.Ok? && FieldOk(f) ==> f.min <= r.value <= f.max
  {
    var s := TrimSpace(text);
    if Lower(s) in f.names then Ok(f.names[Lower(s)]) else
      match ParseUint(s)
      case Err(e) => Err(e)
      case Ok(v) =>
        if f.name == DAY_OF_WEEK && v == 7 then Ok(0)
        else if v < f.min || v > f.max then Err(OutOfRange)
        else Ok(v)
  }

  /** The values `low`, `low + step`, … up to `high`. */
  datatype Interval = Interval(low: nat, high: nat, step: nat)

  predicate In(i: Interval, v: nat) {
    i.low <= v <= i.high && i.step > 0 && (v - i.low) % i.step == 0
  }

  function Step(term: string): Result<nat> {
    if '/' !in term then Ok(1) else
      match ParseUint(term[IndexOf(term, '/') + 1..])
      case Err(_) => Err(BadStep)
      case Ok(n) => if n == 0 then Err(BadStep) else Ok(n)
  }

  function Body(term: string): string {
    if '/' in term then term[..IndexOf(term, '/')] else term
  }

  /** What one term stands for; the source decides this before it sets any bit. */
  function TermInterval(term: string, f: FieldSpec): (r: Result<Interval>)
    ensures r.Ok? && FieldOk(f) ==> f.min <= r.value.low <= r.value.high <= f.max && 0 < r.value.step <= UINT32_MAX
  {
    match Step(term)
    case Err(e) => Err(e)
    case Ok(step) => BodyInterval(Body(term), step, f)
  }

  function BodyInterval(body: string, step: nat, f: FieldSpec): (r: Result<Interval>)
    ensures r.Ok? ==> r.value.step == step
    ensures r.Ok? && FieldOk(f) ==> f.min <= r.value.low <= r.value.high <= f.max
  {
    if body == "*" then Ok(Interval(f.min, f.max, step))
    else if '-' in body then
      var i := IndexOf(body, '-');
      match ParseValue(body[..i], f)
      case Err(e) => Err(e)
      case Ok(low) =>
        match ParseValue(body[i + 1..], f)
        case Err(e) => Err(e)
        case Ok(high) => if low > high then Err(Inverted) else Ok(Interval(low, high, step))
    else
      match ParseValue(body, f)
      case Err(e) => Err(e)
      case Ok(v) => Ok(Interval(v, if step > 1 then f.max else v, step))
  }

  // The grammar, written by concatenation, independent of how a term is searched.

  ghost predicate IsStep(text: string, step: nat) {
    text != "" && AllDigits(text) && Value(text) == step && 0 < step <= UINT32_MAX
  }

  /** `body` is a range: two values with a dash between them, in order. */
  ghost predicate IsRange(body: string, f: FieldSpec, i: Interval) {
    exists a, b ::
      Cut(body, '-', a, b) && ParseValue(a, f) == Ok(i.low) && ParseValue(b, f) == Ok(i.high) && i.low <= i.high
  }

  ghost predicate IsBody(body: string, f: FieldSpec, i: Interval) {
    || (body == "*" && i.low == f.min && i.high == f.max)
    || IsRange(body, f, i)
    || ('-' !in body && body != "*" && ParseValue(body, f) == Ok(i.low)
      && i.high == if i.step > 1 then f.max else i.low)
  }

  /** `term` is a body, a slash and a positive step. */
  ghost predicate IsStepped(term: string, f: FieldSpec, i: Interval) {
    exists body, step :: Cut(term, '/', body, step) && IsStep(step, i.step) && IsBody(body, f, i)
  }

  /** A term is a body with or without a step. */
  ghost predicate IsTerm(term: string, f: FieldSpec, i: Interval) {
    ('/' !in term && i.step == 1 && IsBody(term, f, i)) || IsStepped(term, f, i)
  }

  lemma {:induction false} RangeIff(body: string, f: FieldSpec, i: Interval)
    ensures IsRange(body, f, i) <==>
      '-' in body && i.low <= i.high
      && ParseValue(body[..IndexOf(body, '-')], f) == Ok(i.low)
      && ParseValue(body[IndexOf(body, '-') + 1..], f) == Ok(i.high)
  {
    if '-' in body { CutExists(body, '-'); }
    if IsRange(body, f, i) {
      var a, b :| Cut(body, '-', a, b) && ParseValue(a, f) == Ok(i.low) && ParseValue(b, f) == Ok(i.high)
        && i.low <= i.high;
      CutUnique(body, '-', a, b);
    }
  }

  lemma {:induction false} BodyIff(body: string, step: nat, f: FieldSpec, i: Interval)
    requires i.step == step
    ensures BodyInterval(body, step, f) == Ok(i) <==> IsBody(body, f, i)
  {
    RangeIff(body, f, i);
  }

  lemma {:induction false} SteppedIff(term: string, f: FieldSpec, i: Interval)
    ensures IsStepped(term, f, i) <==>
      '/' in term && IsStep(term[IndexOf(term, '/') + 1..], i.step) && IsBody(term[..IndexOf(term, '/')], f, i)
  {
    if '/' in term { CutExists(term, '/'); }
    if IsStepped(term, f, i) {
      var body, step :| Cut(term, '/', body, step) && IsStep(step, i.step) && IsBody(body, f, i);
      CutUnique(term, '/', body, step);
    }
  }

  /** The parser reads a term as an interval exactly when the grammar does, so
      it accepts neither more nor less than the grammar. */
  lemma {:induction false} TermIff(term: string, f: FieldSpec, i: Interval)
    ensures TermInterval(term, f) == Ok(i) <==> IsTerm(term, f, i)
  {
    SteppedIff(term, f, i);
    BodyIff(Body(term), i.step, f, i);
  }

  ghost predicate Denotes(term: string, f: FieldSpec, v: nat) {
    TermInterval(term, f).Ok? && In(TermInterval(term, f).value, v)
  }

  lemma NextStep(i: Interval, v: nat, w: nat)
    requires i.step > 0 && i.low <= v && (v - i.low) % i.step == 0
    ensures (v + i.step - i.low) % i.step == 0
    ensures v < w < v + i.step ==> !In(i, w)
  {
    ModAdd(v - i.low, i.step, i.step);
    if v < w < v + i.step {
      ModAdd(v - i.low, i.step, w - v);
      assert w - i.low == (v - i.low) + (w - v);
    }
  }

  lemma ModAdd(x: nat, m: nat, d: nat)
    requires m > 0 && x % m == 0 && d <= m
    ensures (x + d) % m == d % m
  {
    var q := x / m;
    assert x == q * m;
    if d == m {
      assert x + d == (q + 1) * m;
      MultipleMod(q + 1, m, 0);
      MultipleMod(1, m, 0);
    } else {
      MultipleMod(q, m, d);
      MultipleMod(0, m, d);
    }
  }

  lemma MultipleMod(q: nat, m: nat, d: nat)
    requires d < m
    ensures (q * m + d) % m == d
  {
    var x := q * m + d;
    QuotientUnique(q, m, d, x / m, x % m);
  }

  lemma QuotientUnique(q: int, m: nat, d: nat, k: int, r: nat)
    requires d < m && r < m && q * m + d == k * m + r
    ensures d == r
  {
    if q > k {
      AtLeast(q - k, m);
    } else if k > q {
      AtLeast(k - q, m);
    }
  }

  lemma AtLeast(a: int, m: nat)
    requires a >= 1
    ensures a * m >= m
  {
  }

  /** Everything `i` denotes below `v`. */
  ghost predicate Covers(bits: Mask, i: Interval, v: nat) {
    forall w: nat :: w in bits <==> w < v && In(i, w)
  }

  lemma CoversNext(bits: Mask, i: Interval, v: nat)
    requires Covers(bits, i, v) && In(i, v)
    ensures Covers(bits + {v}, i, v + i.step) && (v + i.step - i.low) % i.step == 0
  {
    NextStep(i, v, v);
    forall w: nat ensures w in bits + {v} <==> w < v + i.step && In(i, w) {
      NextStep(i, v, w);
    }
  }

  /** `term` is good and `mask` is what it denotes. */
  ghost predicate DenotedBy(mask: Mask, term: string, f: FieldSpec) {
    TermInterval(term, f).Ok? && forall v: nat :: v in mask <==> Denotes(term, f, v)
  }

  method ParseTerm(term: string, f: FieldSpec) returns (r: Result<Mask>)
    requires FieldOk(f)
    ensures match TermInterval(term, f)
      case Err(e) => r == Err(e)
      case Ok(_) => r.Ok? && DenotedBy(r.value, term, f) && forall v :: v in r.value ==> v < 64
  {
    match TermInterval(term, f) {
      case Err(e) => return Err(e);
      case Ok(i) =>
        var bits := SetBits(i);
        return Ok(bits);
    }
  }

  /** The loop of `parseTerm`: it ends, the counter never wraps round a 64-bit
      word, and no shift leaves the mask. */
  method SetBits(i: Interval) returns (bits: Mask)
    requires i.low <= i.high <= 63 && 0 < i.step <= UINT32_MAX
    ensures forall v: nat :: v in bits <==> In(i, v)
  {
    var v := i.low;
    bits := {};
    assert Covers(bits, i, v);
    while v <= i.high
      invariant i.low <= v <= i.high + i.step < 0x1_0000_0000_0000_0000
      invariant (v - i.low) % i.step == 0
      invariant Covers(bits, i, v)
      decreases i.high + i.step - v
    {
      CoversNext(bits, i, v);
      bits := bits + {v};
      v := v + i.step;
    }
  }

  /** The terms of a field, in order. */
  function Terms(field: string): (ts: seq<string>)
    ensures ts != []
  {
    Trimmed(Split(field, ','))
  }

  function Trimmed(parts: seq<string>): (ts: seq<string>)
    ensures |ts| == |parts| && forall k :: 0 <= k < |ts| ==> ts[k] == TrimSpace(parts[k])
  {
    seq(|parts|, k requires 0 <= k < |parts| => TrimSpace(parts[k]))
  }

  ghost predicate GoodField(field: string, f: FieldSpec) {
    forall k :: 0 <= k < |Terms(field)| ==> TermInterval(Terms(field)[k], f).Ok?
  }

  /** Some term of the field denotes `v`. */
  ghost predicate Allows(field: string, f: FieldSpec, v: nat) {
    exists k :: 0 <= k < |Terms(field)| && Denotes(Terms(field)[k], f, v)
  }

  /** `p` holds of a number below `n`. */
  ghost predicate Any(p: nat -> bool, n: nat) {
    n > 0 && (p(n - 1) || Any(p, n - 1))
  }

  lemma {:induction false} AnyIff(p: nat -> bool, n: nat)
    ensures Any(p, n) <==> exists k: nat :: k < n && p(k)
  {
    if n == 0 {
    } else {
      AnyIff(p, n - 1);
    }
  }

  /** Which terms denote `v`. */
  ghost function DenotedAt(terms: seq<string>, f: FieldSpec, v: nat): nat -> bool {
    (k: nat) => k < |terms| && Denotes(terms[k], f, v)
  }

  /** One of the first `n` terms denotes `v`. */
  ghost predicate AllowedBy(terms: seq<string>, n: nat, f: FieldSpec, v: nat) {
    Any(DenotedAt(terms, f, v), n)
  }

  /** `field` is well formed and `mask` is the union of what its terms denote. */
  ghost predicate Reads(field: string, f: FieldSpec, mask: Mask) {
    GoodField(field, f) && forall v: nat :: v in mask <==> Allows(field, f, v)
  }

  /** `bits` is the union of what the first `n` terms, all good, denote. */
  ghost predicate Gathered(bits: Mask, terms: seq<string>, n: nat, f: FieldSpec) {
    && n <= |terms| && (forall k :: 0 <= k < n ==> TermInterval(terms[k], f).Ok?)
    && forall v: nat :: v in bits <==> AllowedBy(terms, n, f, v)
  }

  lemma GatheredNext(bits: Mask, more: Mask, terms: seq<string>, n: nat, f: FieldSpec)
    requires n < |terms| && Gathered(bits, terms, n, f) && DenotedBy(more, terms[n], f)
    ensures Gathered(bits + more, terms, n + 1, f)
  {
  }

  lemma GatheredAll(bits: Mask, field: string, f: FieldSpec)
    requires Gathered(bits, Terms(field), |Terms(field)|, f)
    ensures Reads(field, f, bits)
  {
    forall v: nat ensures v in bits <==> Allows(field, f, v) {
      var terms := Terms(field);
      var p := DenotedAt(terms, f, v);
      AnyIff(p, |terms|);
      assert forall k: nat :: k < |terms| ==> (p(k) <==> Denotes(terms[k], f, v));
    }
  }

  /** A field parses exactly when every term of it is in the grammar, and then
      to the union of its terms. */
  method ParseField(field: string, f: FieldSpec) returns (r: Result<Mask>)
    requires FieldOk(f)
    ensures r.Ok? <==> GoodField(field, f)
    ensures r.Ok? ==> Reads(field, f, r.value)
  {
    var parts := Split(field, ',');
    ghost var terms := Terms(field);
    var bits: Mask := {};
    for k := 0 to |parts|
      invariant Gathered(bits, terms, k, f)
    {
      var term := TrimSpace(parts[k]);
      assert term == terms[k];
      if term == "" {
        NoEmptyTerm(f);
        return Err(EmptyTerm);
      }
      var t := ParseTerm(term, f);
      if t.Err? { return Err(t.error); }
      GatheredNext(bits, t.value, terms, k, f);
      bits := bits + t.value;
    }
    GatheredAll(bits, field, f);
    return Ok(bits);
  }

  lemma NoEmptyTerm(f: FieldSpec)
    requires FieldOk(f)
    ensures TermInterval("", f).Err?
  {
  }

  // ------------------------------------------------------- whole specification

  /** The five fields, after a descriptor is replaced by what it stands for. */
  function FieldTexts(spec: string): seq<string> {
    var t := TrimSpace(spec);
    Words(if Lower(t) in DESCRIPTORS then DESCRIPTORS[Lower(t)] else t)
  }

  const EVERY := "@every "

  predicate IsEvery(spec: string) { EVERY <= TrimSpace(spec) }

  function EveryText(spec: string): string
    requires IsEvery(spec)
  {
    TrimSpace(TrimSpace(spec)[|EVERY|..])
  }

  ghost predicate ReadsAll(words: seq<string>, s: Schedule) {
    && |words| == 5
    && Reads(words[0], Minute(), s.minute) && Reads(words[1], Hour(), s.hour)
    && Reads(words[2], DayOfMonth(), s.dom) && Reads(words[3], Month(), s.month)
    && Reads(words[4], DayOfWeek(), s.dow)
    && s.domStar == (words[2] == "*") && s.dowStar == (words[4] == "*") && s.every == 0
  }

  function Repeating(every: int): Schedule { Schedule({}, {}, {}, {}, {}, false, false, every) }

  /** `spec` is a cron specification for `s`. How a duration reads is given. */
  ghost predicate Spells(spec: string, duration: string -> Result<int>, s: Schedule) {
    if IsEvery(spec) then
      s.every > 0 && duration(EveryText(spec)) == Ok(s.every) && s == Repeating(s.every)
    else
      ReadsAll(FieldTexts(spec), s)
  }

  function SpecOf(k: nat): FieldSpec
    requires k < 5
  {
    if k == 0 then Minute() else if k == 1 then Hour() else if k == 2 then DayOfMonth()
    else if k == 3 then Month() else DayOfWeek()
  }

  lemma SpecsOk(k: nat)
    requires k < 5
    ensures FieldOk(SpecOf(k))
  {
    MonthsOk();
    DaysOk();
  }

  /** `Parse` accepts exactly the specifications of the grammar, and returns the
      schedule the specification spells. */
  method Parse(spec: string, duration: string -> Result<int>) returns (r: Result<Schedule>)
    ensures match r
      case Ok(s) => Spells(spec, duration, s)
      case Err(_) => forall s :: !Spells(spec, duration, s)
  {
    var text := TrimSpace(spec);
    if text == "" {
      assert FieldTexts(spec) == [];
      return Err(EmptySpecification);
    }
    if EVERY <= text {
      var d := duration(TrimSpace(text[|EVERY|..]));
      if d.Err? { return Err(BadDuration); }
      if d.value <= 0 { return Err(NotPositive); }
      return Ok(Repeating(d.value));
    }
    if Lower(text) in DESCRIPTORS {
      text := DESCRIPTORS[Lower(text)];
    }
    var fields := Words(text);
    if |fields| != 5 { return Err(WrongFieldCount); }
    r := ParseFields(fields);
  }

  method ParseFields(fields: seq<string>) returns (r: Result<Schedule>)
    requires |fields| == 5
    ensures match r
      case Ok(s) => ReadsAll(fields, s)
      case Err(_) => forall s :: !ReadsAll(fields, s)
  {
    var masks: seq<Mask> := [];
    var domStar, dowStar := false, false;
    for k := 0 to 5
      invariant |masks| == k
      invariant forall j :: 0 <= j < k ==> Reads(fields[j], SpecOf(j), masks[j])
      invariant k > 2 ==> domStar == (fields[2] == "*")
      invariant k > 4 ==> dowStar == (fields[4] == "*")
    {
      SpecsOk(k);
      var bits := ParseField(fields[k], SpecOf(k));
      if bits.Err? {
        BadFieldFails(fields, k);
        return Err(bits.error);
      }
      masks := masks + [bits.value];
      if k == 2 { domStar := fields[k] == "*"; }
      if k == 4 { dowStar := fields[k] == "*"; }
    }
    AllRead(fields, masks, domStar, dowStar);
    return Ok(Schedule(masks[0], masks[1], masks[2], masks[3], masks[4], domStar, dowStar, 0));
  }

  lemma AllRead(fields: seq<string>, masks: seq<Mask>, domStar: bool, dowStar: bool)
    requires |fields| == |masks| == 5 && forall k :: 0 <= k < 5 ==> Reads(fields[k], SpecOf(k), masks[k])
    requires domStar == (fields[2] == "*") && dowStar == (fields[4] == "*")
    ensures ReadsAll(fields, Schedule(masks[0], masks[1], masks[2], masks[3], masks[4], domStar, dowStar, 0))
  {
    assert Reads(fields[0], SpecOf(0), masks[0]) && Reads(fields[1], SpecOf(1), masks[1]);
    assert Reads(fields[2], SpecOf(2), masks[2]) && Reads(fields[3], SpecOf(3), masks[3]);
    assert Reads(fields[4], SpecOf(4), masks[4]);
  }

  lemma BadFieldFails(fields: seq<string>, k: nat)
    requires |fields| == 5 && k < 5 && !GoodField(fields[k], SpecOf(k))
    ensures forall s :: !ReadsAll(fields, s)
  {
  }

  // --------------------------------------------------------- what parses, means

  /** `mask` is not empty and within the range of the field. */
  ghost predicate Fits(mask: Mask, f: FieldSpec) {
    mask != {} && forall v :: v in mask ==> f.min <= v <= f.max
  }

  ghost predicate Full(mask: Mask, f: FieldSpec) {
    forall v: nat :: v in mask <==> f.min <= v <= f.max
  }

  /** What every five-field schedule the parser returns is like. */
  ghost predicate Canonical(s: Schedule) {
    && Fits(s.minute, Minute()) && Fits(s.hour, Hour()) && Fits(s.dom, DayOfMonth())
    && Fits(s.month, Month()) && Fits(s.dow, DayOfWeek())
    && (s.domStar ==> Full(s.dom, DayOfMonth())) && (s.dowStar ==> Full(s.dow, DayOfWeek()))
    && s.every == 0
  }

  lemma DenotesInRange(term: string, f: FieldSpec, v: nat)
    requires FieldOk(f) && Denotes(term, f, v)
    ensures f.min <= v <= f.max
  {
  }

  lemma {:induction false} ReadsFits(field: string, f: FieldSpec, mask: Mask)
    requires FieldOk(f) && Reads(field, f, mask)
    ensures Fits(mask, f)
  {
    var terms := Terms(field);
    var low := TermInterval(terms[0], f).value.low;
    assert Denotes(terms[0], f, low);
    assert low in mask;
    forall v | v in mask ensures f.min <= v <= f.max {
      var k :| 0 <= k < |terms| && Denotes(terms[k], f, v);
      DenotesInRange(terms[k], f, v);
    }
  }

  lemma StarTerms()
    ensures Terms("*") == ["*"]
  {
    TrimNothing("*");
    assert ',' !in "*";
  }

  lemma {:induction false} StarReads(f: FieldSpec, mask: Mask)
    requires FieldOk(f)
    ensures Reads("*", f, mask) <==> Full(mask, f)
  {
    StarTerms();
    assert TermInterval("*", f) == Ok(Interval(f.min, f.max, 1));
    forall v: nat ensures Allows("*", f, v) <==> f.min <= v <= f.max {
      StarAllows(f, v);
    }
  }

  lemma StarAllows(f: FieldSpec, v: nat)
    requires FieldOk(f)
    ensures Allows("*", f, v) <==> f.min <= v <= f.max
  {
    StarTerms();
    assert TermInterval("*", f) == Ok(Interval(f.min, f.max, 1));
    if f.min <= v <= f.max {
      assert Denotes(Terms("*")[0], f, v);
    }
  }

  /** A schedule read from five fields is in range, restricts nothing to the
      empty set, and has its star flags only where a field allows everything. */
  lemma {:induction false} SpelledCanonical(spec: string, duration: string -> Result<int>, s: Schedule)
    requires Spells(spec, duration, s) && !IsEvery(spec)
    ensures Canonical(s)
  {
    MonthsOk();
    DaysOk();
    var w := FieldTexts(spec);
    ReadsFits(w[0], Minute(), s.minute);
    ReadsFits(w[1], Hour(), s.hour);
    ReadsFits(w[2], DayOfMonth(), s.dom);
    ReadsFits(w[3], Month(), s.month);
    ReadsFits(w[4], DayOfWeek(), s.dow);
    StarReads(DayOfMonth(), s.dom);
    StarReads(DayOfWeek(), s.dow);
  }

  lemma FitsHasBit(mask: Mask, f: FieldSpec)
    requires Fits(mask, f) && f.max <= 63
    ensures HasBit(mask, f.min, f.max)
  {
    var v :| v in mask;
    assert BitSet(mask, v);
  }

  lemma CanonicalWellFormed(s: Schedule)
    requires Canonical(s)
    ensures WellFormed(s)
  {
    FitsHasBit(s.minute, Minute());
    FitsHasBit(s.hour, Hour());
    FitsHasBit(s.dom, DayOfMonth());
    FitsHasBit(s.month, Month());
    FitsHasBit(s.dow, DayOfWeek());
  }

  /** What parses has a next fire time from every moment, exactly unless it asks
      for a day of the month that no common year has. */
  lemma {:induction false} SpelledFires(spec: string, duration: string -> Result<int>, s: Schedule)
    requires Spells(spec, duration, s)
    ensures (forall t :: NaiveNext(s, t).Some?) <==> s.domStar || !s.dowStar || CommonPair(s)
  {
    if !IsEvery(spec) {
      SpelledCanonical(spec, duration, s);
      CanonicalWellFormed(s);
      GivesUpIff(s);
    }
  }

  /** A specification spells one schedule at most. */
  lemma SpellsOne(spec: string, duration: string -> Result<int>, s: Schedule, t: Schedule)
    requires Spells(spec, duration, s) && Spells(spec, duration, t)
    ensures s == t
  {
    if !IsEvery(spec) {
      var w := FieldTexts(spec);
      ReadsOne(w[0], Minute(), s.minute, t.minute);
      ReadsOne(w[1], Hour(), s.hour, t.hour);
      ReadsOne(w[2], DayOfMonth(), s.dom, t.dom);
      ReadsOne(w[3], Month(), s.month, t.month);
      ReadsOne(w[4], DayOfWeek(), s.dow, t.dow);
    }
  }

  lemma ReadsOne(field: string, f: FieldSpec, a: Mask, b: Mask)
    requires Reads(field, f, a) && Reads(field, f, b)
    ensures a == b
  {
    forall v: nat ensures v in a <==> v in b {
      assert v in a <==> Allows(field, f, v);
    }
  }

  /** Sunday is 0 and 7, but 7 is rewritten before the bounds of a range are
      compared: a range up to 7 parses exactly when it starts at Sunday, and then
      it is that one day. */
  lemma {:induction false} SundayEndsNoRange(a: string, b: string, step: nat)
    requires '-' !in a && ParseUint(TrimSpace(b)) == Ok(7)
    ensures BodyInterval(a + "-" + b, step, DayOfWeek()).Ok? <==> ParseValue(a, DayOfWeek()) == Ok(0)
    ensures ParseValue(a, DayOfWeek()) == Ok(0) ==>
      BodyInterval(a + "-" + b, step, DayOfWeek()) == Ok(Interval(0, 0, step))
  {
    CutAt(a, '-', b);
    SevenIsSunday(b);
    DaysOk();
  }

  /** So "Friday to Sunday" cannot be written with a 7. */
  lemma {:induction false} FridayToSevenFails()
    ensures TermInterval("5-7", DayOfWeek()) == Err(Inverted)
  {
    var t := "5-7";
    OneDigit('5');
    OneDigit('7');
    NoDayName("5");
    SevenIsSunday("7");
    CutAt("5", '-', "7");
    assert t == "5" + ['-'] + "7" && '/' !in t;
    assert ParseValue("5", DayOfWeek()) == Ok(5);
    assert BodyInterval(t, 1, DayOfWeek()) == Err(Inverted);
  }

  lemma OneDigit(c: char)
    requires IsDigit(c)
    ensures TrimSpace([c]) == [c] && ParseUint([c]) == Ok(DigitValue(c))
  {
    var s := [c];
    TrimNothing(s);
    assert s[..|s| - 1] == "" && Value("") == 0;
    assert Value(s) == DigitValue(c);
  }

  lemma NoDayName(s: string)
    requires s != "" && IsDigit(s[0])
    ensures Lower(s) !in DAY_NAMES
  {
    DaysOk();
    assert Lower(s)[0] == LowerChar(s[0]);
  }

  lemma SevenIsSunday(b: string)
    requires ParseUint(TrimSpace(b)) == Ok(7)
    ensures ParseValue(b, DayOfWeek()) == Ok(0)
  {
    NoDayName(TrimSpace(b));
  }
}
