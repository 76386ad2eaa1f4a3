/**
 * The plate-calorie pipeline: the prompt sent with a food photo, the tolerant
 * parser of the model's JSON answer, the reply text, and the data URL of the
 * photo (the `data:<mediatype>;base64,<data>` form of section 3 of RFC 2397).
 */
module PlateCalorieEstimator {
  import opened Wrappers
  import opened Text
  import opened Json
  import opened Runtime
  import opened OpenRouter

  /** The flat estimate the parser produces. Numbers are exact reals. */
  datatype CalorieEstimate = CalorieEstimate(
    kcalLow: real,
    kcalHigh: real,
    proteinG: real,
    carbsG: real,
    fatG: real,
    notes: string)

  // ---------------------------------------------------------------------------
  // buildCaloriePrompt
  // ---------------------------------------------------------------------------

  const InstructionLines: seq<string> := [
    "Analyze the food on the plate and estimate realistic calories and macros.",
    "Infer portion sizes from the image and the caption context.",
    "Use ranges, not single numbers.",
    "Explicitly label uncertainty in notes.",
    "Output only JSON with keys { kcal_low, kcal_high, protein_g, carbs_g, fat_g, notes }.",
    "Do not include any text outside the JSON object."]

  /** The six instruction lines, one per line. */
  function Instructions(): string {
    Join(InstructionLines, "\n")
  }

  lemma InstructionLinesNonEmpty()
    ensures forall i :: 0 <= i < |InstructionLines| ==> InstructionLines[i] != ""
  {
  }

  /** The seventh entry of the line array: the trimmed caption after
      `Caption: `, or nothing when the trimmed caption is empty. */
  function CaptionLine(caption: string): (r: string)
    ensures r == "" <==> Trim(caption) == ""
    ensures r != "" ==> r == "Caption: " + Trim(caption)
  {
    var c := Trim(caption);
    if c != "" then "Caption: " + c else ""
  }

  /** `buildCaloriePrompt`: the instruction lines, and a caption line exactly
      when the trimmed caption is non-empty. */
  function BuildCaloriePrompt(caption: string): (r: string)
    ensures Trim(caption) == "" ==> r == Instructions()
    ensures Trim(caption) != "" ==> r == Instructions() + "\n" + CaptionLine(caption)
  {
    InstructionLinesNonEmpty();
    JoinOptionalLast(InstructionLines, CaptionLine(caption), "\n");
    Join(NonEmpty(InstructionLines + [CaptionLine(caption)]), "\n")
  }

  /** Surrounding whitespace of the caption never matters; in particular an
      empty and a blank caption give the same prompt. */
  lemma CaloriePromptTrimInvariant(caption: string)
    ensures BuildCaloriePrompt(caption) == BuildCaloriePrompt(Trim(caption))
  {
    TrimIdempotent(caption);
  }

  // ---------------------------------------------------------------------------
  // coerceNumber
  // ---------------------------------------------------------------------------

  /** The characters `/[^0-9.\-]/g` keeps. */
  predicate NumeralChar(c: char) {
    IsDigit(c) || c == '.' || c == '-'
  }

  /** `value.replace(/[^0-9.\-]/g, '')`. */
  function CleanNumeral(s: string): (r: string)
    ensures |r| <= |s|
    ensures forall i :: 0 <= i < |r| ==> NumeralChar(r[i])
    ensures (forall i :: 0 <= i < |s| ==> NumeralChar(s[i])) ==> r == s
    ensures (forall i :: 0 <= i < |s| ==> !NumeralChar(s[i])) ==> r == []
  {
    if s == [] then []
    else (if NumeralChar(s[0]) then [s[0]] else []) + CleanNumeral(s[1..])
  }

  lemma {:induction false} CleanNumeralConcat(a: string, b: string)
    ensures CleanNumeral(a + b) == CleanNumeral(a) + CleanNumeral(b)
  {
    if a == [] {
      assert a + b == b;
    } else {
      assert (a + b)[0] == a[0];
      assert (a + b)[1..] == a[1..] + b;
      CleanNumeralConcat(a[1..], b);
    }
  }

  /** The number of leading decimal digits. */
  function LeadingDigits(s: string): (n: nat)
    ensures n <= |s| && AllDigits(s[..n])
    ensures n < |s| ==> !IsDigit(s[n])
  {
    if s == [] || !IsDigit(s[0]) then 0
    else
      var n := 1 + LeadingDigits(s[1..]);
      assert s[..n] == [s[0]] + s[1..][..n - 1];
      n
  }

  function Pow10(n: nat): (r: nat)
    ensures r >= 1
  {
    if n == 0 then 1 else 10 * Pow10(n - 1)
  }

  /** The value of the digits `ip` `.` `fp`. */
  function DecimalValue(ip: string, fp: string): (r: real)
    requires AllDigits(ip) && AllDigits(fp)
    ensures r >= DigitsValue(ip) as real
  {
    var frac := DigitsValue(fp) as real / Pow10(|fp|) as real;
    assert frac >= 0.0;
    DigitsValue(ip) as real + frac
  }

  /** There is a number at the start of `u`: a digit, or a point and a
      digit. */
  predicate ReadsNumber(u: string) {
    LeadingDigits(u) > 0 || (|u| > 1 && u[0] == '.' && IsDigit(u[1]))
  }

  /** The longest prefix of the form `digits[.digits]` or `.digits`, and its
      value; `None` when the prefix holds no digit. */
  function ParseUnsigned(s: string): (r: Option<real>)
    ensures r.Some? <==> ReadsNumber(s)
    ensures r.Some? ==> r.value >= 0.0
  {
    var i := LeadingDigits(s);
    var rest := s[i..];
    var f := if rest != [] && rest[0] == '.' then LeadingDigits(rest[1..]) else 0;
    var fp := if rest != [] && rest[0] == '.' then rest[1..][..f] else [];
    if i == 0 && f == 0 then None
    else Some(DecimalValue(s[..i], fp))
  }

  /** `parseFloat` on a string holding only digits, `.` and `-`: an optional
      minus sign, then the unsigned decimal prefix. */
  function ParseFloat(s: string): (r: Option<real>)
    ensures r.Some? <==> ReadsNumber(if s != [] && s[0] == '-' then s[1..] else s)
    ensures r.Some? && r.value < 0.0 ==> s[0] == '-'
  {
    if s != [] && s[0] == '-' then
      match ParseUnsigned(s[1..])
      case Some(v) => Some(-v)
      case None => None
    else ParseUnsigned(s)
  }

  /** `coerceNumber`: a number as is; a string cleaned and parsed, 0 when the
      parse finds no number; anything else 0. */
  function CoerceNumber(v: Option<JsonValue>): (r: real)
    ensures v.Some? && v.value.JNumber? ==> r == v.value.n
    ensures !(v.Some? && (v.value.JNumber? || v.value.JString?)) ==> r == 0.0
    ensures v.Some? && v.value.JString? && ParseFloat(CleanNumeral(v.value.s)).None? ==> r == 0.0
    ensures v.Some? && v.value.JString? && ParseFloat(CleanNumeral(v.value.s)).Some? ==>
      r == ParseFloat(CleanNumeral(v.value.s)).value
  {
    match v
    case Some(JNumber(n)) => n
    case Some(JString(s)) => ParseFloat(CleanNumeral(s)).GetOr(0.0)
    case _ => 0.0
  }

  /** Leading digits stop where the digit string does. */
  lemma LeadingDigitsOf(ds: string, rest: string)
    requires AllDigits(ds) && (rest == [] || !IsDigit(rest[0]))
    ensures LeadingDigits(ds + rest) == |ds| && (ds + rest)[..|ds|] == ds
  {
    var s := ds + rest;
    assert s[..|ds|] == ds;
    if rest == [] {
      assert s == ds;
    } else {
      LeadingDigitsStop(s, |ds|);
    }
  }

  /** The prefix `ip.fp` is read up to the first character after `fp` that is
      not a digit, whatever follows, as with `"12.5.3"` and `"5."`. */
  lemma ParseUnsignedDecimalPrefix(ip: string, fp: string, rest: string)
    requires AllDigits(ip) && AllDigits(fp) && (ip != [] || fp != [])
    requires rest == [] || !IsDigit(rest[0])
    ensures ParseUnsigned(ip + "." + fp + rest) == Some(DecimalValue(ip, fp))
  {
    var s := ip + "." + fp + rest;
    assert s == ip + ("." + fp + rest);
    LeadingDigitsOf(ip, "." + fp + rest);
    assert s[|ip|..] == "." + fp + rest;
    assert ("." + fp + rest)[1..] == fp + rest;
    LeadingDigitsOf(fp, rest);
  }

  /** Digits followed by neither a digit nor a point are read as an integer,
      as with `"300-400"`. */
  lemma ParseUnsignedIntegerPrefix(ip: string, rest: string)
    requires ip != [] && AllDigits(ip)
    requires rest == [] || (!IsDigit(rest[0]) && rest[0] != '.')
    ensures ParseUnsigned(ip + rest) == Some(DigitsValue(ip) as real)
  {
    LeadingDigitsOf(ip, rest);
    assert (ip + rest)[|ip|..] == rest;
    assert DecimalValue(ip, []) == DigitsValue(ip) as real;
  }

  function SignText(negative: bool): string {
    if negative then "-" else ""
  }

  function Signed(negative: bool, v: real): real {
    if negative then -v else v
  }

  /** A leading minus sign negates what follows it. */
  lemma ParseFloatSign(negative: bool, u: string)
    requires u == [] || u[0] != '-'
    ensures ParseFloat(SignText(negative) + u) ==
      if ParseUnsigned(u).Some? then Some(Signed(negative, ParseUnsigned(u).value)) else None
  {
    if negative {
      assert (SignText(negative) + u)[1..] == u;
    } else {
      assert SignText(negative) + u == u;
    }
  }

  /** `parseFloat` of a signed decimal prefix, as with `"-.5"`. */
  lemma ParseFloatDecimalPrefix(negative: bool, ip: string, fp: string, rest: string)
    requires AllDigits(ip) && AllDigits(fp) && (ip != [] || fp != [])
    requires rest == [] || !IsDigit(rest[0])
    ensures ParseFloat(SignText(negative) + (ip + "." + fp + rest)) == Some(Signed(negative, DecimalValue(ip, fp)))
  {
    var u := ip + "." + fp + rest;
    assert u[0] == (if ip != [] then ip[0] else '.');
    ParseUnsignedDecimalPrefix(ip, fp, rest);
    ParseFloatSign(negative, u);
  }

  /** `parseFloat` of a signed integer prefix. */
  lemma ParseFloatIntegerPrefix(negative: bool, ip: string, rest: string)
    requires ip != [] && AllDigits(ip)
    requires rest == [] || (!IsDigit(rest[0]) && rest[0] != '.')
    ensures ParseFloat(SignText(negative) + (ip + rest)) == Some(Signed(negative, DigitsValue(ip) as real))
  {
    var u := ip + rest;
    assert u[0] == ip[0];
    ParseUnsignedIntegerPrefix(ip, rest);
    ParseFloatSign(negative, u);
  }

  /** A digit string parses to its value. */
  lemma ParseDigits(ds: string)
    requires ds != [] && AllDigits(ds)
    ensures ParseUnsigned(ds) == Some(DigitsValue(ds) as real)
  {
    var i := LeadingDigits(ds);
    assert i == |ds|;
    assert ds[..i] == ds;
    assert ds[i..] == [];
    assert DecimalValue(ds, []) == DigitsValue(ds) as real;
  }

  /** The decimal `ip.fp` parses to its value. */
  lemma ParseDecimal(ip: string, fp: string)
    requires ip != [] && AllDigits(ip) && AllDigits(fp)
    ensures ParseUnsigned(ip + "." + fp) == Some(DecimalValue(ip, fp))
  {
    var s := ip + "." + fp;
    var i := LeadingDigits(s);
    assert s[..|ip|] == ip;
    assert !IsDigit(s[|ip|]);
    assert LeadingDigits(s[..|ip|] + s[|ip|..]) == i by { assert s[..|ip|] + s[|ip|..] == s; }
    LeadingDigitsStop(s, |ip|);
    assert i == |ip|;
    var rest := s[i..];
    assert rest == "." + fp;
    assert rest[1..] == fp;
    assert LeadingDigits(fp) == |fp|;
    assert fp[..|fp|] == fp;
  }

  lemma LeadingDigitsStop(s: string, k: nat)
    requires k < |s| && AllDigits(s[..k]) && !IsDigit(s[k])
    ensures LeadingDigits(s) == k
    decreases k
  {
    if k > 0 {
      assert IsDigit(s[..k][0]);
      assert s[1..][..k - 1] == s[1..k];
      LeadingDigitsStop(s[1..], k - 1);
    }
  }

  /** The rendering of every integer reads back as that integer. */
  lemma ParseFloatInt(n: int)
    ensures ParseFloat(IntToString(n)) == Some(n as real)
  {
    var r := IntToString(n);
    if n < 0 {
      ParseDigits(r[1..]);
    } else {
      ParseDigits(r);
    }
  }

  /** A number followed or preceded by characters the cleaner drops coerces
      to that number, as with `"300abc"` and `"12*()"`. */
  lemma CoerceNumberIgnoresJunk(junk1: string, n: int, junk2: string)
    requires forall i :: 0 <= i < |junk1| ==> !NumeralChar(junk1[i])
    requires forall i :: 0 <= i < |junk2| ==> !NumeralChar(junk2[i])
    ensures CoerceNumber(Some(JString(junk1 + IntToString(n) + junk2))) == n as real
  {
    CleanedInteger(junk1, n, junk2);
    ParseFloatInt(n);
  }

  lemma CleanedInteger(junk1: string, n: int, junk2: string)
    requires forall i :: 0 <= i < |junk1| ==> !NumeralChar(junk1[i])
    requires forall i :: 0 <= i < |junk2| ==> !NumeralChar(junk2[i])
    ensures CleanNumeral(junk1 + IntToString(n) + junk2) == IntToString(n)
  {
    IntegerNumeralChars(n);
    CleanAround(junk1, IntToString(n), junk2);
  }

  /** Cleaning drops the junk around a numeral and keeps the numeral. */
  lemma CleanAround(junk1: string, u: string, junk2: string)
    requires forall i :: 0 <= i < |junk1| ==> !NumeralChar(junk1[i])
    requires forall i :: 0 <= i < |u| ==> NumeralChar(u[i])
    requires forall i :: 0 <= i < |junk2| ==> !NumeralChar(junk2[i])
    ensures CleanNumeral(junk1 + u + junk2) == u
  {
    var c1, c2 := CleanNumeral(junk1), CleanNumeral(junk2);
    assert c1 == [] && c2 == [] && CleanNumeral(u) == u;
    CleanNumeralConcat(junk1, u);
    CleanNumeralConcat(junk1 + u, junk2);
    assert CleanNumeral(junk1 + u) == u;
  }

  /** The decimal text of an integer is made of characters the cleaner keeps. */
  lemma IntegerNumeralChars(n: int)
    ensures forall i :: 0 <= i < |IntToString(n)| ==> NumeralChar(IntToString(n)[i])
  {
    var r := IntToString(n);
    forall i | 0 <= i < |r| ensures NumeralChar(r[i]) {
      if n < 0 && i > 0 {
        assert r[i] == r[1..][i - 1];
      }
    }
  }

  /** A decimal string with a fraction coerces to its exact value, as with
      `"500.5"`. */
  lemma CoerceNumberDecimal(n: nat, fp: string)
    requires AllDigits(fp)
    ensures CoerceNumber(Some(JString(NatToString(n) + "." + fp))) == DecimalValue(NatToString(n), fp)
  {
    var s := NatToString(n) + "." + fp;
    assert forall i :: 0 <= i < |s| ==> NumeralChar(s[i]) by {
      assert forall i :: 0 <= i < |s| ==> i < |NatToString(n)| || i == |NatToString(n)| || (i > |NatToString(n)| && s[i] == fp[i - |NatToString(n)| - 1]);
    }
    ParseDecimal(NatToString(n), fp);
  }

  lemma CoerceExampleTrailingLetters()
    ensures CoerceNumber(Some(JString("300abc"))) == 300.0
  {
    assert NatToString(300) == "300" by {
      assert NatToString(3) == "3";
      assert NatToString(30) == "30";
    }
    assert "300abc" == "" + IntToString(300) + "abc";
    CoerceNumberIgnoresJunk("", 300, "abc");
  }

  /** A string the cleaner keeps whole coerces to what `parseFloat` reads. */
  lemma CoerceNumeralString(s: string)
    requires forall i :: 0 <= i < |s| ==> NumeralChar(s[i])
    ensures CoerceNumber(Some(JString(s))) == ParseFloat(s).GetOr(0.0)
  {
  }

  /** A range such as `"300-400 kcal"` coerces to its lower end. */
  lemma CoerceExampleRange()
    ensures CoerceNumber(Some(JString("300-400 kcal"))) == 300.0
  {
    RangeCleaned();
    RangeLowerEnd();
  }

  lemma RangeCleaned()
    ensures CleanNumeral("300-400 kcal") == "300-400"
  {
    assert "300-400" + " kcal" == "300-400 kcal";
    CleanDropsTail("300-400", " kcal");
  }

  lemma CleanDropsTail(a: string, b: string)
    requires forall i :: 0 <= i < |a| ==> NumeralChar(a[i])
    requires forall i :: 0 <= i < |b| ==> !NumeralChar(b[i])
    ensures CleanNumeral(a + b) == a
  {
    CleanNumeralConcat(a, b);
  }

  lemma RangeLowerEnd()
    ensures ParseFloat("300-400") == Some(300.0)
  {
    RangeSplit();
    ParseFloatIntegerPrefix(false, "300", "-400");
    DigitsOf300();
  }

  lemma RangeSplit()
    ensures SignText(false) + ("300" + "-400") == "300-400"
  {
  }

  lemma DigitsOf300()
    ensures DigitsValue("300") == 300
  {
    assert "300"[..2] == "30" && "30"[..1] == "3";
  }

  /** A second point ends the number: `"12.5.3"` coerces to 12.5. */
  lemma CoerceExampleTwoPoints()
    ensures CoerceNumber(Some(JString("12.5.3"))) == 12.5
  {
    CoerceNumeralString("12.5.3");
    TwoPointsParse();
  }

  lemma TwoPointsParse()
    ensures ParseFloat("12.5.3") == Some(12.5)
  {
    TwoPointsSplit();
    ParseFloatDecimalPrefix(false, "12", "5", ".3");
    TwelveAndAHalf();
  }

  lemma TwoPointsSplit()
    ensures SignText(false) + ("12" + "." + "5" + ".3") == "12.5.3"
  {
  }

  lemma TwelveAndAHalf()
    ensures DecimalValue("12", "5") == 12.5
  {
    assert DigitsValue("12") == 12 by {
      assert "12"[..1] == "1";
    }
  }

  /** A negative fraction without integer digits: `"-.5"` coerces to -0.5. */
  lemma CoerceExampleNegativeFraction()
    ensures CoerceNumber(Some(JString("-.5"))) == -0.5
  {
    CoerceNumeralString("-.5");
    assert SignText(true) + ("" + "." + "5" + "") == "-.5";
    ParseFloatDecimalPrefix(true, "", "5", "");
    assert DecimalValue("", "5") == 0.5;
  }

  /** A trailing point is ignored: `"5."` coerces to 5. */
  lemma CoerceExampleTrailingPoint()
    ensures CoerceNumber(Some(JString("5."))) == 5.0
  {
    CoerceNumeralString("5.");
    assert SignText(false) + ("5" + "." + "" + "") == "5.";
    ParseFloatDecimalPrefix(false, "5", "", "");
    assert DecimalValue("5", "") == 5.0;
  }

  // ---------------------------------------------------------------------------
  // tryParseEstimate
  // ---------------------------------------------------------------------------

  /** `trimmed.match(/\{[\s\S]*\}/)?.[0] ?? trimmed`: from the first `{` to
      the last `}` after it, else the whole text. */
  function ParseCandidate(t: string): (r: string)
    ensures !BracePair(t) ==> r == t
    ensures BracePair(t) ==> |r| >= 2 && r[0] == '{' && r[|r| - 1] == '}'
  {
    match FirstIndexOfChar(t, '{')
    case None => NoBracePair(t); t
    case Some(i) =>
      match LastIndexOfChar(t, '}')
      case None => NoBracePair(t); t
      case Some(j) => if i < j then t[i..j + 1] else NoBracePair(t); t
  }

  /** Some `{` comes before some `}`: the pattern `/\{[\s\S]*\}/` matches. */
  predicate BracePair(t: string) {
    exists i, j :: 0 <= i < j < |t| && t[i] == '{' && t[j] == '}'
  }

  /** Without a `}` after the first `{` there is no pair. */
  lemma NoBracePair(t: string)
    requires FirstIndexOfChar(t, '{').None? || LastIndexOfChar(t, '}').None?
      || FirstIndexOfChar(t, '{').value >= LastIndexOfChar(t, '}').value
    ensures !BracePair(t)
  {
    if FirstIndexOfChar(t, '{').Some? && LastIndexOfChar(t, '}').Some? {
      var a := FirstIndexOfChar(t, '{').value;
      var b := LastIndexOfChar(t, '}').value;
      forall k | 0 <= k < a ensures t[k] != '{' {
        assert t[..a][k] == t[k];
      }
      forall k | b < k < |t| ensures t[k] != '}' {
        assert t[b + 1..][k - b - 1] == t[k];
      }
    }
  }

  /** Text around a braced span that holds no `{` before it and no `}` after
      it does not change the candidate. */
  lemma CandidateOfEmbedded(p: string, m: string, q: string)
    requires |m| >= 2 && m[0] == '{' && m[|m| - 1] == '}'
    requires '{' !in p && '}' !in q
    ensures ParseCandidate(p + m + q) == m
  {
    var t := p + m + q;
    var k := |p| + |m| - 1;
    assert t[..|p|] == p;
    assert t[k + 1..] == q;
    FirstIndexOfCharAt(t, '{', |p|);
    LastIndexOfCharAt(t, '}', k);
    assert t[|p|..k + 1] == m;
  }

  /** The fields the parser reads from a parsed value; `raw.field` on a
      non-object is `undefined`. */
  function EstimateFields(raw: JsonValue): (est: CalorieEstimate)
    ensures TrimEdges(est.notes)
    ensures est.notes != "" ==> (raw.JObject? && "notes" in raw.fields && raw.fields["notes"].JString?
      && est.notes == Trim(raw.fields["notes"].s))
    ensures (raw.JObject? && "notes" in raw.fields && raw.fields["notes"].JString?) ==> est.notes == Trim(raw.fields["notes"].s)
  {
    var notes := Member(Some(raw), "notes");
    CalorieEstimate(
      CoerceNumber(Member(Some(raw), "kcal_low")),
      CoerceNumber(Member(Some(raw), "kcal_high")),
      CoerceNumber(Member(Some(raw), "protein_g")),
      CoerceNumber(Member(Some(raw), "carbs_g")),
      CoerceNumber(Member(Some(raw), "fat_g")),
      if notes.Some? && notes.value.JString? then (TrimEdgesHold(notes.value.s); Trim(notes.value.s)) else "")
  }

  /** Each number comes from its own key: a numeric field gives its value,
      and a missing field (or a value that is not an object) gives 0. */
  lemma EstimateFieldsNumbers(raw: JsonValue)
    ensures (raw.JObject? && "kcal_low" in raw.fields && raw.fields["kcal_low"].JNumber?) ==> EstimateFields(raw).kcalLow == raw.fields["kcal_low"].n
    ensures (raw.JObject? && "kcal_high" in raw.fields && raw.fields["kcal_high"].JNumber?) ==> EstimateFields(raw).kcalHigh == raw.fields["kcal_high"].n
    ensures (raw.JObject? && "protein_g" in raw.fields && raw.fields["protein_g"].JNumber?) ==> EstimateFields(raw).proteinG == raw.fields["protein_g"].n
    ensures (raw.JObject? && "carbs_g" in raw.fields && raw.fields["carbs_g"].JNumber?) ==> EstimateFields(raw).carbsG == raw.fields["carbs_g"].n
    ensures (raw.JObject? && "fat_g" in raw.fields && raw.fields["fat_g"].JNumber?) ==> EstimateFields(raw).fatG == raw.fields["fat_g"].n
    ensures !(raw.JObject? && "kcal_low" in raw.fields) ==> EstimateFields(raw).kcalLow == 0.0
    ensures !(raw.JObject? && "kcal_high" in raw.fields) ==> EstimateFields(raw).kcalHigh == 0.0
    ensures !(raw.JObject? && "protein_g" in raw.fields) ==> EstimateFields(raw).proteinG == 0.0
    ensures !(raw.JObject? && "carbs_g" in raw.fields) ==> EstimateFields(raw).carbsG == 0.0
    ensures !(raw.JObject? && "fat_g" in raw.fields) ==> EstimateFields(raw).fatG == 0.0
  {
  }

  /** A reply with all five numbers and string notes gives exactly those
      numbers and the trimmed notes. */
  lemma FullReplyEstimate(low: real, high: real, protein: real, carbs: real, fat: real, notes: string)
    ensures EstimateFields(JObject(map["kcal_low" := JNumber(low), "kcal_high" := JNumber(high), "protein_g" := JNumber(protein),
                                       "carbs_g" := JNumber(carbs), "fat_g" := JNumber(fat), "notes" := JString(notes)]))
      == CalorieEstimate(low, high, protein, carbs, fat, Trim(notes))
  {
    var raw := JObject(map["kcal_low" := JNumber(low), "kcal_high" := JNumber(high), "protein_g" := JNumber(protein),
                           "carbs_g" := JNumber(carbs), "fat_g" := JNumber(fat), "notes" := JString(notes)]);
    assert Member(Some(raw), "kcal_low") == Some(JNumber(low));
    assert Member(Some(raw), "kcal_high") == Some(JNumber(high));
    assert Member(Some(raw), "protein_g") == Some(JNumber(protein));
    assert Member(Some(raw), "carbs_g") == Some(JNumber(carbs));
    assert Member(Some(raw), "fat_g") == Some(JNumber(fat));
    assert Member(Some(raw), "notes") == Some(JString(notes));
  }

  /** The guard's condition: every numeric field is zero. */
  predicate AllZero(est: CalorieEstimate) {
    est.kcalLow == 0.0 && est.kcalHigh == 0.0 && est.proteinG == 0.0 && est.carbsG == 0.0 && est.fatG == 0.0
  }

  /** What the parser makes of a `JSON.parse` outcome: nothing for a failed
      parse, for `null` (reading a field of it throws) and for an all-zero
      estimate. */
  function EstimateFromJson(parsed: Option<JsonValue>): (r: Option<CalorieEstimate>)
    ensures r.None? <==> (parsed.None? || parsed.value.JNull? || AllZero(EstimateFields(parsed.value)))
    ensures r.Some? ==> r.value == EstimateFields(parsed.value) && !AllZero(r.value)
  {
    match parsed
    case None => None
    case Some(JNull) => None
    case Some(raw) =>
      var est := EstimateFields(raw);
      if AllZero(est) then None else Some(est)
  }

  /** `tryParseEstimate`: it never throws; every failure is `undefined`. */
  function TryParseEstimate(text: string, parseJson: string -> Option<JsonValue>): (r: Option<CalorieEstimate>)
    ensures r.Some? ==> !AllZero(r.value) && TrimEdges(r.value.notes)
    ensures parseJson(ParseCandidate(Trim(text))).None? ==> r.None?
    ensures r.None? <==> EstimateFromJson(parseJson(ParseCandidate(Trim(text)))).None?
  {
    EstimateFromJson(parseJson(ParseCandidate(Trim(text))))
  }

  /** Prose or a code fence around the JSON object does not change the
      outcome, as long as the prose before it has no `{` and the prose after
      it no `}`. */
  lemma EstimateFromEmbeddedJson(p: string, m: string, q: string, parseJson: string -> Option<JsonValue>)
    requires |m| >= 2 && m[0] == '{' && m[|m| - 1] == '}'
    requires '{' !in p && '}' !in q
    ensures TryParseEstimate(p + m + q, parseJson) == EstimateFromJson(parseJson(m))
  {
    CandidateOfTrimmedEmbedded(p, m, q);
  }

  lemma CandidateOfTrimmedEmbedded(p: string, m: string, q: string)
    requires |m| >= 2 && m[0] == '{' && m[|m| - 1] == '}'
    requires '{' !in p && '}' !in q
    ensures ParseCandidate(Trim(p + m + q)) == m
  {
    TrimAround(p, m, q);
    TrimStartKeepsAbsence(p, '{');
    TrimEndKeepsAbsence(q, '}');
    CandidateOfEmbedded(TrimStart(p), m, TrimEnd(q));
  }

  /** A reply with only the two calorie bounds still gives an estimate, with
      the macros at zero and no notes. */
  lemma PartialEstimate(low: real, high: real)
    requires low != 0.0 || high != 0.0
    ensures EstimateFromJson(Some(JObject(map["kcal_low" := JNumber(low), "kcal_high" := JNumber(high)])))
      == Some(CalorieEstimate(low, high, 0.0, 0.0, 0.0, ""))
  {
    var raw := JObject(map["kcal_low" := JNumber(low), "kcal_high" := JNumber(high)]);
    assert Member(Some(raw), "kcal_low") == Some(JNumber(low));
    assert Member(Some(raw), "kcal_high") == Some(JNumber(high));
    assert "protein_g" !in raw.fields && "carbs_g" !in raw.fields && "fat_g" !in raw.fields && "notes" !in raw.fields;
    assert EstimateFields(raw) == CalorieEstimate(low, high, 0.0, 0.0, 0.0, "");
  }

  /** A reply that has only notes, or that gives every number as an object
      (as the `{low, high}` ranges of the module prompt would), is rejected. */
  lemma NonNumericEstimateRejected(fields: map<string, JsonValue>)
    requires forall k :: k in fields && k != "notes" ==> fields[k].JObject? || fields[k].JArray? || fields[k].JNull? || fields[k].JBool?
    ensures EstimateFromJson(Some(JObject(fields))) == None
  {
    var raw := JObject(fields);
    assert CoerceNumber(Member(Some(raw), "kcal_low")) == 0.0;
    assert CoerceNumber(Member(Some(raw), "kcal_high")) == 0.0;
    assert CoerceNumber(Member(Some(raw), "protein_g")) == 0.0;
    assert CoerceNumber(Member(Some(raw), "carbs_g")) == 0.0;
    assert CoerceNumber(Member(Some(raw), "fat_g")) == 0.0;
  }

  // ---------------------------------------------------------------------------
  // renderCalorieEstimate
  // ---------------------------------------------------------------------------

  /** `Math.round`: halves round up. */
  function Round(x: real): (r: int)
    ensures r as real <= x + 0.5 < r as real + 1.0
  {
    (x + 0.5).Floor
  }

  lemma RoundOfInteger(n: int)
    ensures Round(n as real) == n
  {
  }

  function CaloriesLine(est: CalorieEstimate): string {
    "Calories: " + IntToString(Round(est.kcalLow)) + "\U{2013}" + IntToString(Round(est.kcalHigh)) + " kcal"
  }

  function MacrosLine(est: CalorieEstimate): string {
    "Macros: " + IntToString(Round(est.proteinG)) + " g protein, " + IntToString(Round(est.carbsG))
      + " g carbs, " + IntToString(Round(est.fatG)) + " g fat"
  }

  /** The third entry of the line array. */
  function NotesLine(est: CalorieEstimate): (r: string)
    ensures r == "" <==> est.notes == ""
    ensures r != "" ==> r == "Notes: " + est.notes
  {
    if est.notes != "" then "Notes: " + est.notes else ""
  }

  /** `renderCalorieEstimate`: the calories line and the macros line, and a
      notes line exactly when there are notes. */
  function RenderCalorieEstimate(est: CalorieEstimate): (r: string)
    ensures est.notes == "" ==> r == CaloriesLine(est) + "\n" + MacrosLine(est)
    ensures est.notes != "" ==> r == CaloriesLine(est) + "\n" + MacrosLine(est) + "\n" + NotesLine(est)
  {
    var head := [CaloriesLine(est), MacrosLine(est)];
    assert head[1..] == [MacrosLine(est)];
    JoinOptionalLast(head, NotesLine(est), "\n");
    Join(NonEmpty(head + [NotesLine(est)]), "\n")
  }

  // ---------------------------------------------------------------------------
  // Data URLs
  // ---------------------------------------------------------------------------

  const DataPrefix: string := "data:"
  const Base64Marker: string := ";base64,"

  /** `buildDataUrl`: an existing data URL passes through. */
  function BuildDataUrl(base64Data: string, mimeType: string): (r: string)
    ensures StartsWith(r, DataPrefix)
    ensures StartsWith(base64Data, DataPrefix) ==> r == base64Data
    ensures !StartsWith(base64Data, DataPrefix) ==> r == DataPrefix + mimeType + Base64Marker + base64Data
  {
    if StartsWith(base64Data, DataPrefix) then base64Data
    else DataPrefix + mimeType + Base64Marker + base64Data
  }

  lemma BuildDataUrlIdempotent(base64Data: string, m1: string, m2: string)
    ensures BuildDataUrl(BuildDataUrl(base64Data, m1), m2) == BuildDataUrl(base64Data, m1)
  {
  }

  /** The media type and data of a base64 data URL, split at the first
      `;base64,`. */
  function ParseDataUrl(url: string): (r: Option<(string, string)>)
    ensures r.Some? ==> url == DataPrefix + r.value.0 + Base64Marker + r.value.1
  {
    if !StartsWith(url, DataPrefix) then None
    else
      var body := url[|DataPrefix|..];
      match IndexOf(body, Base64Marker)
      case None => None
      case Some(i) =>
        assert body[i..i + |Base64Marker|] == Base64Marker;
        assert body == body[..i] + Base64Marker + body[i + |Base64Marker|..];
        Some((body[..i], body[i + |Base64Marker|..]))
  }

  /** A media type without parameters and data that is not itself a data
      URL come back out of the URL built from them. */
  lemma DataUrlRoundTrip(base64Data: string, mimeType: string)
    requires !StartsWith(base64Data, DataPrefix) && ';' !in mimeType
    ensures ParseDataUrl(BuildDataUrl(base64Data, mimeType)) == Some((mimeType, base64Data))
  {
    var url := BuildDataUrl(base64Data, mimeType);
    assert url[|DataPrefix|..] == mimeType + Base64Marker + base64Data;
    FirstOccurrenceAfter(mimeType, Base64Marker, base64Data);
    var body := url[|DataPrefix|..];
    assert body[..|mimeType|] == mimeType;
    assert body[|mimeType| + |Base64Marker|..] == base64Data;
  }

  /** `resolveImageDataUrl`: non-empty base64 data wins over a path; the media
      type defaults to `image/jpeg` only when none is given. */
  function ResolveImageDataUrl(imagePath: Option<string>, base64Data: Option<string>, mimeType: Option<string>, host: Host): (r: Result<Option<string>>)
    ensures Present(base64Data) ==> r == Ok(Some(BuildDataUrl(base64Data.value, mimeType.GetOr(DefaultImageMime))))
    ensures !Present(base64Data) && !Present(imagePath) ==> r == Ok(None)
    ensures !Present(base64Data) && Present(imagePath) ==>
      (r.Ok? <==> imagePath.value in host.files)
    ensures !Present(base64Data) && Present(imagePath) && r.Ok? ==>
      r.value == Some(BuildDataUrl(host.files[imagePath.value],
        match host.mimeLookup(imagePath.value) case Some(m) => m case None => mimeType.GetOr(DefaultImageMime)))
  {
    if Present(base64Data) then Ok(Some(BuildDataUrl(base64Data.value, mimeType.GetOr(DefaultImageMime))))
    else if Present(imagePath) then
      match ReadFileBase64(host, imagePath.value)
      case Err(e) => Err(e)
      case Ok(data) =>
        var mime := match host.mimeLookup(imagePath.value) case Some(m) => m case None => mimeType.GetOr(DefaultImageMime);
        Ok(Some(BuildDataUrl(data, mime)))
    else Ok(None)
  }

  // ---------------------------------------------------------------------------
  // estimatePlateCalories
  // ---------------------------------------------------------------------------

  const NutritionSystemPrompt: string := "You are a nutrition assistant. Output only JSON."

  datatype EstimateParams = EstimateParams(
    imagePath: Option<string>,
    base64Data: Option<string>,
    mimeType: Option<string>,
    captionText: string)

  /** The parameters the source passes to `describeImage`. Its `imageUrl` key
      is not a parameter of `describeImage`, so no image reaches it. */
  function AsWrittenDescribeParams(caption: string): (d: DescribeParams)
    ensures d.base64Data.None? && d.mimeType.None? && d.imagePath.None?
  {
    DescribeParams(None, None, None, Some(BuildCaloriePrompt(caption)), Some(NutritionSystemPrompt), Some(0.1), Some(600))
  }

  /** `estimatePlateCalories` as written. The defect: for every input the
      call fails before any request is made, with the missing-image error
      whenever the image resolved and a vision model is configured. */
  function EstimatePlateCaloriesAsWritten(c: OpenRouterClient, params: EstimateParams, host: Host, provider: Provider): (r: Result<Option<CalorieEstimate>>)
    ensures r.Err?
    ensures c.visionModel != "" && ResolveImageDataUrl(params.imagePath, params.base64Data, params.mimeType, host).Ok? ==>
      r == Err(NoImageError)
  {
    DescribeImageNeedsImage(c, AsWrittenDescribeParams(params.captionText), host, provider);
    match ResolveImageDataUrl(params.imagePath, params.base64Data, params.mimeType, host)
    case Err(e) => Err(e)
    case Ok(_) =>
      match DescribeImage(c, AsWrittenDescribeParams(params.captionText), host, provider)
      case Err(e) => Err(e)
      case Ok(raw) => Ok(TryParseEstimate(raw, host.parseJson))
  }

  /** The parameters the corrected wiring passes: the resolved data URL split
      back into its media type and data. */
  function CorrectedDescribeParams(caption: string, url: Option<string>): (d: DescribeParams)
    ensures d.imagePath.None? && d.instruction == Some(BuildCaloriePrompt(caption))
    ensures d.system == Some(NutritionSystemPrompt) && d.temperature == Some(0.1) && d.maxTokens == Some(600)
  {
    var parts := if url.Some? then ParseDataUrl(url.value) else None;
    DescribeParams(
      if parts.Some? then Some(parts.value.1) else None,
      if parts.Some? then Some(parts.value.0) else None,
      None, Some(BuildCaloriePrompt(caption)), Some(NutritionSystemPrompt), Some(0.1), Some(600))
  }

  /** `estimatePlateCalories` with the resolved image handed to
      `describeImage`. */
  function EstimatePlateCalories(c: OpenRouterClient, params: EstimateParams, host: Host, provider: Provider): (r: Result<Option<CalorieEstimate>>)
    ensures r.Ok? && r.value.Some? ==> !AllZero(r.value.value)
  {
    match ResolveImageDataUrl(params.imagePath, params.base64Data, params.mimeType, host)
    case Err(e) => Err(e)
    case Ok(url) =>
      match DescribeImage(c, CorrectedDescribeParams(params.captionText, url), host, provider)
      case Err(e) => Err(e)
      case Ok(raw) => Ok(TryParseEstimate(raw, host.parseJson))
  }

  /** The intended behaviour: the request carries the calorie prompt, the
      nutrition system prompt and exactly the resolved data URL, and the
      model's answer goes through the tolerant parser. */
  lemma CorrectedSendsResolvedImage(c: OpenRouterClient, params: EstimateParams, host: Host, provider: Provider, url: string)
    requires ResolveImageDataUrl(params.imagePath, params.base64Data, params.mimeType, host) == Ok(Some(url))
    requires c.visionModel != ""
    requires ParseDataUrl(url).Some? && ParseDataUrl(url).value.0 != "" && ParseDataUrl(url).value.1 != ""
    ensures ImagePayload(c, CorrectedDescribeParams(params.captionText, Some(url)), host).Ok?
    ensures
      var p := ImagePayload(c, CorrectedDescribeParams(params.captionText, Some(url)), host).value;
      p.messages == [ChatMessage(System, Plain(NutritionSystemPrompt)),
                     ChatMessage(User, Parts([InputText(BuildCaloriePrompt(params.captionText)), InputImage(url)]))]
      && p.temperature == Some(0.1) && p.maxTokens == Some(600)
      && EstimatePlateCalories(c, params, host, provider) ==
        match RequestCompletion(c, p, provider, host.parseJson)
        case Err(e) => Err(e)
        case Ok(raw) => Ok(TryParseEstimate(raw, host.parseJson))
  {
    var parts := ParseDataUrl(url).value;
    var d := CorrectedDescribeParams(params.captionText, Some(url));
    CorrectedParamsCarryUrl(params.captionText, url);
    PayloadFromData(c, d, host, parts.1, parts.0);
    DataUrlOfParts(url);
    SystemImageMessages(d, parts.1, parts.0, BuildCaloriePrompt(params.captionText), url);
  }

  lemma CorrectedParamsCarryUrl(caption: string, url: string)
    requires ParseDataUrl(url).Some?
    ensures CorrectedDescribeParams(caption, Some(url)).base64Data == Some(ParseDataUrl(url).value.1)
    ensures CorrectedDescribeParams(caption, Some(url)).mimeType == Some(ParseDataUrl(url).value.0)
  {
  }

  lemma PayloadFromData(c: OpenRouterClient, d: DescribeParams, host: Host, data: string, mime: string)
    requires c.visionModel != "" && !Present(d.imagePath)
    requires d.base64Data == Some(data) && d.mimeType == Some(mime) && data != "" && mime != ""
    ensures ImagePayload(c, d, host) == Ok(Payload(c.visionModel, ImageMessages(d, data, mime),
      Some(d.temperature.GetOr(0.2)), Some(d.maxTokens.GetOr(300))))
  {
    assert ImageSource(d, host) == Ok((data, mime));
  }

  lemma SystemImageMessages(d: DescribeParams, data: string, mime: string, prompt: string, url: string)
    requires d.system == Some(NutritionSystemPrompt) && d.instruction == Some(prompt)
    requires "data:" + mime + ";base64," + data == url
    ensures ImageMessages(d, data, mime) == [ChatMessage(System, Plain(NutritionSystemPrompt)),
      ChatMessage(User, Parts([InputText(prompt), InputImage(url)]))]
  {
    assert Present(d.system);
  }

  lemma DataUrlOfParts(url: string)
    requires ParseDataUrl(url).Some?
    ensures "data:" + ParseDataUrl(url).value.0 + ";base64," + ParseDataUrl(url).value.1 == url
  {
    var parts := ParseDataUrl(url).value;
    assert DataPrefix + parts.0 + Base64Marker + parts.1 == url;
  }

  /** In particular, base64 data given with a plain media type is sent as the
      data URL built from them. */
  lemma CorrectedSendsBase64Image(c: OpenRouterClient, params: EstimateParams, host: Host)
    requires Present(params.base64Data) && !StartsWith(params.base64Data.value, DataPrefix)
    requires Present(params.mimeType) && ';' !in params.mimeType.value
    ensures
      var url := DataPrefix + params.mimeType.value + Base64Marker + params.base64Data.value;
      ResolveImageDataUrl(params.imagePath, params.base64Data, params.mimeType, host) == Ok(Some(url))
      && ParseDataUrl(url) == Some((params.mimeType.value, params.base64Data.value))
  {
    DataUrlRoundTrip(params.base64Data.value, params.mimeType.value);
  }
}
