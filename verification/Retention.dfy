/** Retention settings: parse_purge_after() and RetentionConfig::enabled() of src/config.hpp. */
module Retention {
  import opened Wrappers
  import opened Decimals

  function UnitName(c: char): Option<string> {
    match c
    case 's' => Some("seconds")
    case 'm' => Some("minutes")
    case 'h' => Some("hours")
    case 'd' => Some("days")
    case _ => None
  }

  /** A Postgres interval literal, or None where the setting is malformed. */
  function ParsePurgeAfter(raw: string): Option<string> {
    if raw == "" || raw == "0" then Some("0 seconds")
    else if |raw| < 2 then None
    else
      var unit, digits := raw[|raw| - 1], raw[..|raw| - 1];
      if !AllDigits(digits) || UnitName(unit).None? then None
      else Some(digits + " " + UnitName(unit).value)
  }

  // ---- What the literal means to Postgres ----------------------------------------------------------

  function LeadDigits(s: string): (n: nat)
    ensures n <= |s| && AllDigits(s[..n]) && (n < |s| ==> !Digit(s[n]))
  {
    if s == "" || !Digit(s[0]) then 0
    else
      var n := LeadDigits(s[1..]);
      assert s[..n + 1] == [s[0]] + s[1..][..n];
      n + 1
  }

  /** A day counts as 24 hours. */
  function UnitSeconds(name: string): Option<nat> {
    if name == "seconds" then Some(1)
    else if name == "minutes" then Some(60)
    else if name == "hours" then Some(3600)
    else if name == "days" then Some(86400)
    else None
  }

  /** The length of an interval literal, or None where Postgres would reject it. */
  function IntervalSeconds(literal: string): Option<nat> {
    var n := LeadDigits(literal);
    if n == 0 || n >= |literal| || literal[n] != ' ' then None
    else
      match UnitSeconds(literal[n + 1..])
      case Some(unit) => Some(Value(literal[..n]) * unit)
      case None => None
  }

  predicate Enabled(raw: string) { raw != "" && raw != "0" }

  /** The literal of a number of units, and what it stands for. */
  datatype Duration = Duration(digits: string, unit: char) {
    predicate Valid() { digits != "" && AllDigits(digits) && UnitName(unit).Some? }

    function Setting(): string { digits + [unit] }

    function Literal(): string
      requires UnitName(unit).Some?
    {
      digits + " " + UnitName(unit).value
    }

    function Seconds(): nat
      requires Valid()
    {
      Value(digits) * match unit case 's' => 1 case 'm' => 60 case 'h' => 3600 case _ => 86400
    }
  }

  lemma {:induction false} DigitsLead(digits: string, rest: string)
    requires AllDigits(digits) && (rest == "" || !Digit(rest[0]))
    ensures LeadDigits(digits + rest) == |digits|
  {
    if digits == "" {
      assert digits + rest == rest;
    } else {
      assert (digits + rest)[1..] == digits[1..] + rest;
      DigitsLead(digits[1..], rest);
    }
  }

  /** The literal the worker hands to Postgres means the length the setting names. */
  lemma LiteralLasts(d: Duration)
    requires d.Valid()
    ensures IntervalSeconds(d.Literal()) == Some(d.Seconds())
  {
    var name := UnitName(d.unit).value;
    assert d.Literal() == d.digits + (" " + name);
    DigitsLead(d.digits, " " + name);
    assert d.Literal()[..|d.digits|] == d.digits && d.Literal()[|d.digits| + 1..] == name;
  }

  /** How old a done row must be for the worker to purge it; None where it does not purge at all. */
  function PurgeAge(raw: string): Option<nat> {
    match ParsePurgeAfter(raw)
    case Some(literal) => if Enabled(raw) then IntervalSeconds(literal) else None
    case None => None
  }

  /** The worker purges exactly for digits followed by s, m, h or d, and by the length they name: the sum of the
      digits by their places, in seconds, minutes, hours or days. */
  lemma PurgeAgeIsSetting(raw: string)
    ensures var n := |raw| - 1;
      PurgeAge(raw) ==
        if n >= 1 && AllDigits(raw[..n]) && raw[n] in "smhd" then
          Some(PlaceSum(raw[..n]) * if raw[n] == 's' then 1 else if raw[n] == 'm' then 60
                                    else if raw[n] == 'h' then 3_600 else 86_400)
        else None
  {
    AcceptsExactly(raw);
    var n := |raw| - 1;
    if n >= 1 && AllDigits(raw[..n]) && raw[n] in "smhd" {
      var d := Duration(raw[..n], raw[n]);
      assert d.Setting() == raw && d.Valid();
      LiteralLasts(d);
      ValueIsPlaceSum(d.digits);
    }
  }

  /** "10d" purges what has been done for more than ten days. */
  lemma TenDays()
    ensures PurgeAge("10d") == Some(864_000) && PurgeAge("90m") == Some(5_400) && PurgeAge("0") == None
  {
    TwoDigits();
    hide PurgeAge, PlaceSum;
    assert "10d"[..2] == "10" && "90m"[..2] == "90";
    PurgeAgeIsSetting("10d");
    PurgeAgeIsSetting("90m");
    PurgeAgeIsSetting("0");
  }

  lemma TwoDigits()
    ensures PlaceSum("10") == 10 && PlaceSum("90") == 90
  {
    assert "10"[1..] == "0" && "90"[1..] == "0" && "0"[1..] == "";
    assert Pow10(1) == 10 && PlaceSum("0") == 0;
  }

  /** Exactly the empty string, "0", and digits followed by s, m, h or d are accepted; the last kind, and only
      that, makes the worker purge, and with the literal of the same number of the same unit. */
  lemma AcceptsExactly(raw: string)
    ensures ParsePurgeAfter(raw).Some? <==>
      raw == "" || raw == "0" || exists d: Duration :: d.Valid() && d.Setting() == raw
    ensures ParsePurgeAfter(raw).Some? && Enabled(raw) <==> exists d: Duration :: d.Valid() && d.Setting() == raw
    ensures forall d: Duration :: d.Valid() && d.Setting() == raw ==> ParsePurgeAfter(raw) == Some(d.Literal())
  {
    if Enabled(raw) && ParsePurgeAfter(raw).Some? {
      var d := Duration(raw[..|raw| - 1], raw[|raw| - 1]);
      assert d.Valid() && d.Setting() == raw;
    }
    forall d: Duration | d.Valid() && d.Setting() == raw
      ensures ParsePurgeAfter(raw) == Some(d.Literal()) && Enabled(raw)
    {
      assert raw[..|raw| - 1] == d.digits && raw[|raw| - 1] == d.unit;
    }
  }

  /** Different settings of the last kind never give the same interval literal. */
  lemma LiteralsDiffer(a: Duration, b: Duration)
    requires a.Valid() && b.Valid() && a.Literal() == b.Literal()
    ensures a == b
  {
    // Digits come before the first space, so the spaces are in the same place.
    var x, y := a.Literal(), b.Literal();
    assert forall i :: 0 <= i < |a.digits| ==> x[i] == a.digits[i];
    assert forall i :: 0 <= i < |b.digits| ==> y[i] == b.digits[i];
    assert x[|a.digits|] == ' ' && y[|b.digits|] == ' ';
    assert a.digits == x[..|a.digits|] && b.digits == y[..|b.digits|];
    assert x[|a.digits| + 1..] == UnitName(a.unit).value && y[|b.digits| + 1..] == UnitName(b.unit).value;
    assert UnitName(a.unit).value[0] == a.unit && UnitName(b.unit).value[0] == b.unit;
  }

  /** So the setting can be read back from the literal: on settings of the last kind the parser is injective. */
  lemma ParserInjective(raw1: string, raw2: string)
    requires Enabled(raw1) && Enabled(raw2)
    requires ParsePurgeAfter(raw1).Some? && ParsePurgeAfter(raw1) == ParsePurgeAfter(raw2)
    ensures raw1 == raw2
  {
    AcceptsExactly(raw1);
    AcceptsExactly(raw2);
    var d1: Duration :| d1.Valid() && d1.Setting() == raw1;
    var d2: Duration :| d2.Valid() && d2.Setting() == raw2;
    LiteralsDiffer(d1, d2);
  }

  /** Off the last kind it is not: the disabled settings read as the literal of the enabled "0s". */
  lemma DisabledReadsAsZeroSeconds()
    ensures ParsePurgeAfter("0s") == Some("0 seconds") && Enabled("0s")
    ensures ParsePurgeAfter("") == ParsePurgeAfter("0s") && ParsePurgeAfter("0") == ParsePurgeAfter("0s")
    ensures !Enabled("") && !Enabled("0")
  {
    assert "0s"[..1] == "0" && "0s"[1] == 's';
    assert "0" + " " + "seconds" == "0 seconds";
  }
}
