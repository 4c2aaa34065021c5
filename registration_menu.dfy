/** The registration flow: six states that greet a new user and collect the
    name, LGA, age, expected delivery date, history of complications and
    diabetes, each answering with the next question. */
module RegistrationMenu {
  import opened Wrappers
  import opened JsSemantics
  import opened PhoneFormatter
  import opened UssdTypes
  import opened UssdEngine

  // -------------------------------------------------------------- handlers

  /** registration.name: a number that already has an account is turned
      away, logging nothing and reading no name; otherwise the input is taken
      as the name, the start of a registration is logged with the gateway's
      number and session, and the LGA list is shown. Looking the number up
      throws when it does not normalise. */
  function CollectNameStep(input: string, ctx: Context): (r: Result<Output, PhoneError>)
    ensures r.Failure? <==> FormatPhoneNumber(ctx.phoneNumber).Failure?
    ensures IsStored(ctx) ==> r == Success(Show(End(AlreadyRegistered)))
    ensures IsNew(ctx) ==>
              r == Success(Output(Con(LgaChoices(input)), NameGiven(input),
                                  [Event("registration_started", ctx.phoneNumber, ctx.sessionId)], None))
  {
    match UserExists(ctx)
    case Failure(e) => Failure(e)
    case Success(registered) =>
      if registered then Success(Show(End(AlreadyRegistered)))
      else Success(Output(Con(LgaChoices(input)), NameGiven(input),
                          [Event("registration_started", ctx.phoneNumber, ctx.sessionId)], None))
  }

  /** `KANO_LGAS[parseInt(val) - 1]?.name || "Unknown"`: the number typed
      picks the LGA with that number in the list; anything else is
      "Unknown". */
  function LgaNameFor(input: string): (name: string)
    ensures ParseInt(input).Some? && 1 <= ParseInt(input).value <= 9 ==>
              name == KanoLgas()[ParseInt(input).value - 1].name
    ensures !(ParseInt(input).Some? && 1 <= ParseInt(input).value <= 9) ==> name == "Unknown"
  {
    var index := ParseInt(input);
    if index.Some? && 0 <= index.value - 1 < |KanoLgas()| && KanoLgas()[index.value - 1].name != "" then
      KanoLgas()[index.value - 1].name
    else "Unknown"
  }

  /** registration.lga: whatever is typed, the LGA it names is read and the
      age is asked for. */
  function CollectLgaStep(input: string): (r: Output)
    ensures r.reply == Con(AgePrompt) && r.events == [] && r.update == None
    ensures r.captured == LgaChosen(LgaNameFor(input))
  {
    Output(Con(AgePrompt), LgaChosen(LgaNameFor(input)), [], None)
  }

  /** registration.age: the age is accepted exactly when parseInt reads an
      integer from 10 to 60; otherwise the corrective prompt is shown and
      nothing is read. */
  function CollectAgeStep(input: string): (r: Output)
    ensures r.reply == Con(EddPrompt) <==> ParseInt(input).Some? && 10 <= ParseInt(input).value <= 60
    ensures r.reply != Con(EddPrompt) ==> r == Show(Con(AgeInvalid))
    ensures r.reply == Con(EddPrompt) ==>
              r.captured == AgeGiven(ParseInt(input).value) && r.events == [] && r.update == None
  {
    var age := ParseInt(input);
    if age.None? || age.value < 10 || age.value > 60 then Show(Con(AgeInvalid))
    else Output(Con(EddPrompt), AgeGiven(age.value), [], None)
  }

  /** Part i of a split date through `Number`; a missing part is undefined,
      which is NaN. */
  function DatePart(parts: seq<string>, i: nat): Option<int>
  {
    if i < |parts| then StringToNumber(parts[i]) else None
  }

  /** `new Date(year, month - 1, day)` for the DD-MM-YYYY input: local
      midnight of that day, rolled over when out of range, NaN as `None`.
      An input with fewer than three '-'-separated parts has no year and is
      NaN. */
  function EddInstant(input: string, tzOffset: int): (t: Option<int>)
    ensures |Split(input, '-')| < 3 ==> t.None?
    ensures (DatePart(Split(input, '-'), 0).None? || DatePart(Split(input, '-'), 1).None?
             || DatePart(Split(input, '-'), 2).None?) ==> t.None?
    ensures t.Some? ==> -MaxTimeValue <= t.value <= MaxTimeValue
  {
    var parts := Split(input, '-');
    DateOfParts(DatePart(parts, 0), DatePart(parts, 1), DatePart(parts, 2), tzOffset)
  }

  /** `new Date(year, month - 1, day)` on the numbers read from the parts. */
  function DateOfParts(day: Option<int>, month: Option<int>, year: Option<int>, tzOffset: int): Option<int>
  {
    LocalDate(year, if month.Some? then Some(month.value - 1) else None, day, tzOffset)
  }

  /** registration.edd: the date is rejected exactly when it is NaN or
      before now; an accepted date is the one read. */
  function CollectEddStep(input: string, ctx: Context): (r: Output)
    ensures r.reply == Con(EddInvalid) <==>
              EddInstant(input, ctx.tzOffset).None? || EddInstant(input, ctx.tzOffset).value < ctx.now
    ensures r.reply != Con(EddInvalid) ==>
              r.reply == Con(ComplicationsQuestion)
              && r.captured == EddGiven(EddInstant(input, ctx.tzOffset).value)
  {
    var edd := EddInstant(input, ctx.tzOffset);
    if edd.None? || edd.value < ctx.now then Show(Con(EddInvalid))
    else Output(Con(ComplicationsQuestion), EddGiven(edd.value), [], None)
  }

  /** A date whose day, month or year field holds a character `Number`
      cannot read is rejected. */
  lemma NonNumericDateRejected(input: string, ctx: Context, i: nat, k: int)
    requires i < 3 && i < |Split(input, '-')|
    requires 0 <= k < |Split(input, '-')[i]|
    requires var c := Split(input, '-')[i][k];
             !IsDigit(c) && !IsWhiteSpace(c) && c != '+'
    ensures CollectEddStep(input, ctx).reply == Con(EddInvalid)
  {
    var parts := Split(input, '-');
    assert parts[i][k] != '-';
    StrayCharIsNaN(parts[i], k);
    PartNaNRejected(input, ctx, i);
  }

  /** A date with a NaN field is rejected. */
  lemma PartNaNRejected(input: string, ctx: Context, i: nat)
    requires i < 3 && DatePart(Split(input, '-'), i).None?
    ensures CollectEddStep(input, ctx).reply == Con(EddInvalid)
  {
    PartNaNGivesNaN(Split(input, '-'), i, ctx.tzOffset);
  }

  /** A NaN field makes the whole date NaN. */
  lemma PartNaNGivesNaN(parts: seq<string>, i: nat, tzOffset: int)
    requires i < 3 && DatePart(parts, i).None?
    ensures DateOfParts(DatePart(parts, 0), DatePart(parts, 1), DatePart(parts, 2), tzOffset).None?
  {
    var day, month, year := DatePart(parts, 0), DatePart(parts, 1), DatePart(parts, 2);
    assert day.None? || month.None? || year.None? by {
      if i == 0 {
      } else if i == 1 {
      } else {
        assert i == 2;
      }
    }
    DateOfPartsNaN(day, month, year, tzOffset);
  }

  /** `new Date` with a NaN argument is an invalid date. */
  lemma DateOfPartsNaN(day: Option<int>, month: Option<int>, year: Option<int>, tzOffset: int)
    requires day.None? || month.None? || year.None?
    ensures DateOfParts(day, month, year, tzOffset).None?
  {
  }

  /** registration.complications: 1 sets the complications flag, 3 the
      first-pregnancy flag, never both, and any other answer neither. */
  function CollectComplicationsStep(input: string): (r: Output)
    ensures r.reply == Con(DiabetesQuestion) && r.captured.HistoryGiven?
    ensures r.captured.previousComplications <==> input == "1"
    ensures r.captured.firstPregnancy <==> input == "3"
    ensures !(r.captured.previousComplications && r.captured.firstPregnancy)
  {
    Output(Con(DiabetesQuestion), HistoryGiven(input == "1", input == "3"), [], None)
  }

  /** registration.diabetes: the flag is set exactly by the input 1. */
  function CollectDiabetesStep(input: string): (r: Output)
    ensures r.reply == Con(MultiplePregnancyQuestion) && r.captured.DiabetesGiven?
    ensures r.captured.gestationalDiabetes <==> input == "1"
  {
    Output(Con(MultiplePregnancyQuestion), DiabetesGiven(input == "1"), [], None)
  }

  // ---------------------------------------------------------------- tables

  const NameNext: seq<Transition> :=
    [Transition(Literal("1"), "registration.lga"), Transition(Literal("2"), "registration.lga"),
     Transition(Literal("3"), "registration.lga"), Transition(Literal("4"), "registration.lga"),
     Transition(Literal("5"), "registration.lga"), Transition(Literal("6"), "registration.lga"),
     Transition(Literal("7"), "registration.lga"), Transition(Literal("8"), "registration.lga"),
     Transition(Literal("9"), "registration.lga")]
  const LgaNext: seq<Transition> := [Transition(Digits, "registration.age")]
  const AgeNext: seq<Transition> :=
    [Transition(Digits, "registration.age"), Transition(DateShape, "registration.edd")]
  const EddNext: seq<Transition> :=
    [Transition(Literal("1"), "registration.complications"), Transition(Literal("2"), "registration.complications"),
     Transition(Literal("3"), "registration.complications")]
  const ComplicationsNext: seq<Transition> :=
    [Transition(Literal("1"), "registration.diabetes"), Transition(Literal("2"), "registration.diabetes")]
  /** The flow goes on to "registration.complete", which is never registered. */
  const DiabetesNext: seq<Transition> :=
    [Transition(Literal("1"), "registration.complete"), Transition(Literal("2"), "registration.complete"),
     Transition(Literal("3"), "registration.complete")]

  /** The states `registrationStates` adds to a menu. */
  function RegistrationRegistry(): map<string, StateConfig>
  {
    map[
      "registration.name" := StateConfig(CollectName, NameNext),
      "registration.lga" := StateConfig(CollectLga, LgaNext),
      "registration.age" := StateConfig(CollectAge, AgeNext),
      "registration.edd" := StateConfig(CollectEdd, EddNext),
      "registration.complications" := StateConfig(CollectComplications, ComplicationsNext),
      "registration.diabetes" := StateConfig(CollectDiabetes, DiabetesNext)
    ]
  }

  /** Six registrations in a row amount to adding the six states at once. */
  lemma SixRegistrations(before: map<string, StateConfig>, name: StateConfig, lga: StateConfig,
                         age: StateConfig, edd: StateConfig, complications: StateConfig,
                         diabetes: StateConfig)
    ensures before["registration.name" := name]["registration.lga" := lga]["registration.age" := age]
                  ["registration.edd" := edd]["registration.complications" := complications]
                  ["registration.diabetes" := diabetes]
            == before + map["registration.name" := name, "registration.lga" := lga, "registration.age" := age,
                            "registration.edd" := edd, "registration.complications" := complications,
                            "registration.diabetes" := diabetes]
  {
    UnionUpdate(before, map[], "registration.name", name);
    assert before["registration.name" := name] == before + map["registration.name" := name];
    UnionUpdate(before, map["registration.name" := name], "registration.lga", lga);
    UnionUpdate(before, map["registration.name" := name, "registration.lga" := lga], "registration.age", age);
    UnionUpdate(before, map["registration.name" := name, "registration.lga" := lga, "registration.age" := age],
                "registration.edd", edd);
    UnionUpdate(before, map["registration.name" := name, "registration.lga" := lga, "registration.age" := age,
                            "registration.edd" := edd],
                "registration.complications", complications);
    UnionUpdate(before, map["registration.name" := name, "registration.lga" := lga, "registration.age" := age,
                            "registration.edd" := edd, "registration.complications" := complications],
                "registration.diabetes", diabetes);
  }

  /** registrationStates(menu): registers the six states on the menu,
      replacing any earlier states of the same names and keeping the rest. */
  method RegistrationStates(menu: UssdMenu)
    modifies menu
    ensures menu.states == old(menu.states) + RegistrationRegistry()
  {
    ghost var before := menu.states;
    var name := StateConfig(CollectName, NameNext);
    var lga := StateConfig(CollectLga, LgaNext);
    var age := StateConfig(CollectAge, AgeNext);
    var edd := StateConfig(CollectEdd, EddNext);
    var complications := StateConfig(CollectComplications, ComplicationsNext);
    var diabetes := StateConfig(CollectDiabetes, DiabetesNext);
    menu.State("registration.name", name);
    menu.State("registration.lga", lga);
    menu.State("registration.age", age);
    menu.State("registration.edd", edd);
    menu.State("registration.complications", complications);
    menu.State("registration.diabetes", diabetes);
    SixRegistrations(before, name, lga, age, edd, complications, diabetes);
  }

  // ------------------------------------------------------------ properties

  /** Typing the id an LGA is listed with selects that LGA. */
  lemma LgaByListedId(n: nat)
    requires 1 <= n <= 9
    ensures LgaNameFor(KanoLgas()[n - 1].id) == KanoLgas()[n - 1].name
  {
    ParseIntOfDigits(NatToDecimal(n));
  }

  /** A DD-MM-YYYY input of digits is read as that day, the month counted
      from 1. */
  lemma EddOfDigits(dd: string, mm: string, yyyy: string, tzOffset: int)
    requires dd != [] && mm != [] && yyyy != [] && AllDigits(dd) && AllDigits(mm) && AllDigits(yyyy)
    ensures EddInstant(dd + "-" + mm + "-" + yyyy, tzOffset)
              == LocalDate(Some(DecimalValue(yyyy)), Some(DecimalValue(mm) - 1), Some(DecimalValue(dd)), tzOffset)
  {
    DatePartsOfDigits(dd, mm, yyyy);
    EddInstantOfFields(dd + "-" + mm + "-" + yyyy, tzOffset, dd, mm, yyyy);
  }

  /** The instant of an input whose three fields are digit strings. */
  lemma EddInstantOfFields(input: string, tzOffset: int, dd: string, mm: string, yyyy: string)
    requires dd != [] && mm != [] && yyyy != [] && AllDigits(dd) && AllDigits(mm) && AllDigits(yyyy)
    requires Split(input, '-') == [dd, mm, yyyy]
    ensures EddInstant(input, tzOffset)
              == LocalDate(Some(DecimalValue(yyyy)), Some(DecimalValue(mm) - 1), Some(DecimalValue(dd)), tzOffset)
  {
    var parts := Split(input, '-');
    DatePartOfDigits(parts, 0, dd);
    DatePartOfDigits(parts, 1, mm);
    DatePartOfDigits(parts, 2, yyyy);
    EddInstantOfParts(input, tzOffset, DecimalValue(dd), DecimalValue(mm), DecimalValue(yyyy));
  }

  /** The instant is read from the three parts: year, month counted from 1,
      day. */
  lemma EddInstantOfParts(input: string, tzOffset: int, d: int, m: int, y: int)
    requires DatePart(Split(input, '-'), 0) == Some(d)
    requires DatePart(Split(input, '-'), 1) == Some(m)
    requires DatePart(Split(input, '-'), 2) == Some(y)
    ensures EddInstant(input, tzOffset) == LocalDate(Some(y), Some(m - 1), Some(d), tzOffset)
  {
    assert EddInstant(input, tzOffset) == DateOfParts(Some(d), Some(m), Some(y), tzOffset);
    DateOfNumbers(d, m, y, tzOffset);
  }

  lemma DateOfNumbers(d: int, m: int, y: int, tzOffset: int)
    ensures DateOfParts(Some(d), Some(m), Some(y), tzOffset) == LocalDate(Some(y), Some(m - 1), Some(d), tzOffset)
  {
  }

  /** A part made of digits is read as its decimal value. */
  lemma DatePartOfDigits(parts: seq<string>, i: nat, digits: string)
    requires i < |parts| && parts[i] == digits && digits != [] && AllDigits(digits)
    ensures DatePart(parts, i) == Some(DecimalValue(digits))
  {
  }

  /** Splitting at '-' recovers the three digit fields. */
  lemma DatePartsOfDigits(dd: string, mm: string, yyyy: string)
    requires AllDigits(dd) && AllDigits(mm) && AllDigits(yyyy)
    ensures Split(dd + "-" + mm + "-" + yyyy, '-') == [dd, mm, yyyy]
  {
    NoDashInDigits(dd);
    NoDashInDigits(mm);
    NoDashInDigits(yyyy);
    SplitNoSeparator(yyyy, '-');
    SplitAtSeparator(mm, '-', yyyy);
    SplitAtSeparator(dd, '-', mm + "-" + yyyy);
    assert dd + "-" + mm + "-" + yyyy == dd + ['-'] + (mm + ['-'] + yyyy);
  }

  lemma NoDashInDigits(s: string)
    requires AllDigits(s)
    ensures forall i :: 0 <= i < |s| ==> s[i] != '-'
  {
    forall i | 0 <= i < |s| ensures s[i] != '-' {
      assert IsDigit(s[i]);
    }
  }

  lemma DateFieldValues()
    ensures DecimalValue("31") == 31 && DecimalValue("02") == 2
  {
    assert "31"[..1] == "3" && "3"[..0] == [];
    assert "02"[..1] == "0" && "0"[..0] == [];
  }

  /** February of a year from 100 on: its last day plus k is day k of March. */
  lemma FebruaryRollsIntoMarch(y: int, k: int, tzOffset: int)
    requires y >= 100
    ensures LocalDate(Some(y), Some(1), Some(DaysInMonth(y, 1) + k), tzOffset)
              == LocalDate(Some(y), Some(2), Some(k), tzOffset)
  {
    DateRollsOver(y, 1, k);
    assert FullYear(y) == y;
  }

  /** 31 February is not rejected as invalid: in any time zone it is the
      3rd of March, or the 2nd in a leap year, of a four-digit year, and it
      is accepted whenever that day is not in the past. */
  lemma FebruaryThirtyFirstRollsOver(input: string, yyyy: string, ctx: Context)
    requires |yyyy| == 4 && AllDigits(yyyy) && DecimalValue(yyyy) >= 100
    requires -50400000 <= ctx.tzOffset <= 50400000
    requires input == "31-02-" + yyyy
    ensures EddInstant(input, ctx.tzOffset)
              == LocalDate(Some(DecimalValue(yyyy)), Some(2), Some(31 - DaysInMonth(DecimalValue(yyyy), 1)),
                           ctx.tzOffset)
    ensures EddInstant(input, ctx.tzOffset).Some?
    ensures EddInstant(input, ctx.tzOffset).value >= ctx.now ==>
              CollectEddStep(input, ctx).reply == Con(ComplicationsQuestion)
              && CollectEddStep(input, ctx).captured == EddGiven(EddInstant(input, ctx.tzOffset).value)
  {
    var y := DecimalValue(yyyy);
    assert input == "31" + "-" + "02" + "-" + yyyy;
    EddOfDigits("31", "02", yyyy, ctx.tzOffset);
    DateFieldValues();
    FebruaryRollsIntoMarch(y, 31 - DaysInMonth(y, 1), ctx.tzOffset);
    DecimalValueBelowPow10(yyyy);
    assert Pow10(4) == 10000;
    LocalDateDefined(y, 2, 31 - DaysInMonth(y, 1), ctx.tzOffset);
  }

  /** Every registration step but the first always continues; the first
      ends only to turn away a registered number. */
  lemma OnlyAlreadyRegisteredEnds(input: string, ctx: Context)
    ensures CollectNameStep(input, ctx).Success? && CollectNameStep(input, ctx).value.reply.End? ==>
              CollectNameStep(input, ctx).value.reply == End(AlreadyRegistered)
    ensures CollectLgaStep(input).reply.Con?
    ensures CollectAgeStep(input).reply.Con?
    ensures CollectEddStep(input, ctx).reply.Con?
    ensures CollectComplicationsStep(input).reply.Con?
    ensures CollectDiabetesStep(input).reply.Con?
  {
  }

  /** The name step takes the digits 1 to 9 to the LGA step. */
  lemma NameTable(input: string, mode: MatchMode)
    ensures Resolve(NameNext, input, mode)
              == if input in ["1", "2", "3", "4", "5", "6", "7", "8", "9"] then Some("registration.lga") else None
  {
    var keys := ["1", "2", "3", "4", "5", "6", "7", "8", "9"];
    assert forall j :: 0 <= j < 9 ==> NameNext[j] == Transition(Literal(keys[j]), "registration.lga");
    if input in keys {
      var k :| 0 <= k < 9 && keys[k] == input;
      ResolveTakesFirstMatch(NameNext, input, mode, k);
    } else {
      ResolveWithoutMatch(NameNext, input, mode);
    }
  }

  /** The LGA step takes digits to the age step. */
  lemma LgaTable(input: string, mode: MatchMode)
    ensures Resolve(LgaNext, input, mode)
              == if Matches(Digits, input, mode) then Some("registration.age") else None
  {
  }

  /** The age step takes digits back to itself and a date to the
      delivery-date step, the digits key first. */
  lemma AgeTable(input: string, mode: MatchMode)
    ensures Resolve(AgeNext, input, mode)
              == if Matches(Digits, input, mode) then Some("registration.age")
                 else if Matches(DateShape, input, mode) then Some("registration.edd") else None
  {
  }

  /** The delivery-date step takes 1 to 3 on; the complications step 1 or
      2; the diabetes step takes 1 to 3 to "registration.complete". */
  lemma QuestionTables(input: string, mode: MatchMode)
    ensures Resolve(EddNext, input, mode)
              == if input in ["1", "2", "3"] then Some("registration.complications") else None
    ensures Resolve(ComplicationsNext, input, mode)
              == if input in ["1", "2"] then Some("registration.diabetes") else None
    ensures Resolve(DiabetesNext, input, mode)
              == if input in ["1", "2", "3"] then Some("registration.complete") else None
  {
    assert EddNext == LiteralsTo(["1", "2", "3"], "registration.complications");
    LiteralsToResolves(["1", "2", "3"], "registration.complications", input, mode);
    assert ComplicationsNext == LiteralsTo(["1", "2"], "registration.diabetes");
    LiteralsToResolves(["1", "2"], "registration.diabetes", input, mode);
    assert DiabetesNext == LiteralsTo(["1", "2", "3"], "registration.complete");
    LiteralsToResolves(["1", "2", "3"], "registration.complete", input, mode);
  }

  lemma CompleteNotAmong(name: StateConfig, lga: StateConfig, age: StateConfig, edd: StateConfig,
                         complications: StateConfig, diabetes: StateConfig)
    ensures "registration.complete"
              !in map["registration.name" := name, "registration.lga" := lga, "registration.age" := age,
                      "registration.edd" := edd, "registration.complications" := complications,
                      "registration.diabetes" := diabetes]
  {
  }

  /** The diabetes step leads to "registration.complete", which is not
      among the registered states. */
  lemma CompleteIsNotRegistered()
    ensures "registration.complete" !in RegistrationRegistry()
  {
    CompleteNotAmong(StateConfig(CollectName, NameNext), StateConfig(CollectLga, LgaNext),
                     StateConfig(CollectAge, AgeNext), StateConfig(CollectEdd, EddNext),
                     StateConfig(CollectComplications, ComplicationsNext),
                     StateConfig(CollectDiabetes, DiabetesNext));
  }

  /** Which convention the library follows decides whether the delivery
      date can ever be entered: matched against the whole input, a date goes
      to the delivery-date step; matched anywhere in it, the digits key
      listed first takes the date back to the age step. */
  lemma DateRouteDependsOnMode(input: string)
    requires DateShaped(input)
    ensures Resolve(AgeNext, input, Anchored) == Some("registration.edd")
    ensures Resolve(AgeNext, input, Unanchored) == Some("registration.age")
  {
    assert !IsDigit(input[2]);
    assert IsDigit(input[0]);
  }

  /** Matched anywhere in the input, no input at all leads from the age step
      to the delivery-date step: every input the date key matches holds a
      digit, so the digits key listed before it matches first. */
  lemma NoInputReachesEddUnanchored(input: string)
    ensures Resolve(AgeNext, input, Unanchored) != Some("registration.edd")
  {
    if Matches(DateShape, input, Unanchored) {
      var i :| 0 <= i <= |input| - 10 && DateShapedAt(input, i);
      assert input[i..i + 10][0] == input[i];
      assert Matches(Digits, input, Unanchored);
    }
  }
}
