/** One turn of a session: the state reached is looked up in the current
    state's `next` table, and its handler answers this turn's input. */
module UssdTurn {
  import opened Wrappers
  import opened JsSemantics
  import opened PhoneFormatter
  import opened UssdEngine
  import opened RegistrationMenu
  import opened MainMenu
  import opened UssdTypes

  /** A handler run on this turn's input. Only the phone-number lookups can
      throw. */
  function Run(h: Handler, input: string, ctx: Context): (r: Result<Output, PhoneError>)
    ensures r.Failure? ==> FormatPhoneNumber(ctx.phoneNumber).Failure?
  {
    match h
    case Greeting => GreetingStep(ctx)
    case DangerSignsOrRegister => DangerSignsOrRegisterStep(ctx)
    case VaccinesOrAbout => VaccinesOrAboutStep(ctx)
    case Callback => CallbackStep(ctx)
    case Emergency => Success(EmergencyStep())
    case Profile => ProfileStep(ctx)
    case UpdateMenu => UpdateMenuStep(ctx)
    case AskNewName => Success(Show(Con(NewNamePrompt)))
    case ConfirmName => Success(ConfirmNameStep(input, ctx))
    case AskNewLga => Success(Show(Con(NewLgaPrompt)))
    case ConfirmLga => Success(ConfirmLgaStep(input, ctx))
    case AskNewWeek => Success(Show(Con(NewWeekPrompt)))
    case ConfirmWeek => Success(ConfirmWeekStep(input, ctx))
    case CollectName => CollectNameStep(input, ctx)
    case CollectLga => Success(CollectLgaStep(input))
    case CollectAge => Success(CollectAgeStep(input))
    case CollectEdd => Success(CollectEddStep(input, ctx))
    case CollectComplications => Success(CollectComplicationsStep(input))
    case CollectDiabetes => Success(CollectDiabetesStep(input))
  }

  /** What a turn comes to: the state reached and its handler's output, a
      state name nothing is registered under, or an exception. */
  datatype Outcome = Replied(state: string, out: Output) | UnknownState(name: string) | Threw(error: PhoneError)

  /** Running the state registered under `target`: its handler's output,
      labelled with that state; an exception when the handler throws; and
      the unknown-state outcome exactly when nothing is registered there. */
  function RunIn(reg: map<string, StateConfig>, target: string, input: string, ctx: Context): (o: Outcome)
    ensures o.UnknownState? <==> target !in reg
    ensures o.UnknownState? ==> o.name == target
    ensures o.Replied? ==> o.state == target && Run(reg[target].run, input, ctx) == Success(o.out)
    ensures o.Threw? ==> Run(reg[target].run, input, ctx).Failure? && FormatPhoneNumber(ctx.phoneNumber).Failure?
  {
    if target !in reg then UnknownState(target)
    else match Run(reg[target].run, input, ctx)
      case Failure(e) => Threw(e)
      case Success(out) => Replied(target, out)
  }

  /** The first turn of a session runs the start state with no input: it
      answers from the start state, or reports that no start state is
      registered. */
  function Begin(reg: map<string, StateConfig>, ctx: Context): (o: Outcome)
    ensures StartKey !in reg ==> o == UnknownState(StartKey)
    ensures o.Replied? ==> o.state == StartKey && Run(reg[StartKey].run, "", ctx) == Success(o.out)
    ensures o.Threw? ==> FormatPhoneNumber(ctx.phoneNumber).Failure?
  {
    RunIn(reg, StartKey, "", ctx)
  }

  /** A later turn: the first matching entry of the current state's table
      names the state to run; with no match the current state runs again. */
  function Step(reg: map<string, StateConfig>, mode: MatchMode, current: string, input: string,
                ctx: Context): (o: Outcome)
    ensures o.Replied? ==> o.state in reg
    ensures current !in reg ==> o == UnknownState(current)
  {
    if current !in reg then UnknownState(current)
    else
      var target := Resolve(reg[current].next, input, mode);
      RunIn(reg, if target.Some? then target.value else current, input, ctx)
  }

  // ------------------------------------------------------------ properties

  /** Input no entry of the table matches leaves the session in the same
      state, whose handler answers it. */
  lemma NoMatchStaysPut(reg: map<string, StateConfig>, mode: MatchMode, current: string, input: string,
                        ctx: Context)
    requires current in reg
    requires forall j :: 0 <= j < |reg[current].next| ==> !Matches(reg[current].next[j].pattern, input, mode)
    ensures Step(reg, mode, current, input, ctx) == RunIn(reg, current, input, ctx)
  {
    ResolveWithoutMatch(reg[current].next, input, mode);
  }

  /** A turn that throws always carries the invalid-number error of the
      gateway's number: no other failure reaches the caller. */
  lemma ThrowsOnlyOnBadNumber(reg: map<string, StateConfig>, mode: MatchMode, current: string,
                              input: string, ctx: Context)
    ensures Step(reg, mode, current, input, ctx).Threw? ==>
              Step(reg, mode, current, input, ctx).error == InvalidPhoneFormat(ctx.phoneNumber)
  {
  }

  /** A turn whose input matches an entry of the current state's table runs
      the state that entry names. */
  lemma StepFollowsTable(reg: map<string, StateConfig>, mode: MatchMode, current: string, input: string,
                         ctx: Context, target: string)
    requires current in reg && Resolve(reg[current].next, input, mode) == Some(target)
    ensures Step(reg, mode, current, input, ctx) == RunIn(reg, target, input, ctx)
  {
  }

  /** The age step never throws: it answers in the state it runs in. */
  lemma AgeStepRepliesWhereRun(reg: map<string, StateConfig>, target: string, input: string, ctx: Context)
    requires target in reg && reg[target].run == CollectAge
    ensures RunIn(reg, target, input, ctx) == Replied(target, CollectAgeStep(input))
  {
  }

  /** The first turn greets through the start state. */
  lemma SessionOpensWithGreeting(ctx: Context)
    ensures Begin(MainRegistry(), ctx)
              == match GreetingStep(ctx)
                 case Failure(e) => Threw(e)
                 case Success(out) => Replied(StartKey, out)
  {
    var reg := MainRegistry();
    assert StartKey in reg && reg[StartKey].run == Greeting by { MainRegistryEntries(); }
  }

  /** Options 1 to 6 of the start state's table name menu.option1 to 6. */
  lemma StartTargetOf(input: string, mode: MatchMode)
    requires input in ["1", "2", "3", "4", "5", "6"]
    ensures Resolve(StartNext, input, mode) == Some("menu.option" + input)
  {
    StartTable(input, mode);
    var target := "menu.option" + input;
    if input == "1" { assert target == "menu.option1"; }
    else if input == "2" { assert target == "menu.option2"; }
    else if input == "3" { assert target == "menu.option3"; }
    else if input == "4" { assert target == "menu.option4"; }
    else if input == "5" { assert target == "menu.option5"; }
    else { assert target == "menu.option6"; }
  }

  /** The start state's table, in any registry that holds it. */
  lemma StartOptionsLeadIn(reg: map<string, StateConfig>, input: string, mode: MatchMode, ctx: Context)
    requires StartKey in reg && reg[StartKey].next == StartNext
    requires input in ["1", "2", "3", "4", "5", "6"]
    ensures Step(reg, mode, StartKey, input, ctx) == RunIn(reg, "menu.option" + input, input, ctx)
  {
    StartTargetOf(input, mode);
    StepFollowsTable(reg, mode, StartKey, input, ctx, "menu.option" + input);
  }

  /** From the start menu, option k runs menu.option k with the same input,
      for k from 1 to 6. */
  lemma StartOptionsLead(input: string, mode: MatchMode, ctx: Context)
    requires input in ["1", "2", "3", "4", "5", "6"]
    ensures Step(MainRegistry(), mode, StartKey, input, ctx) == RunIn(MainRegistry(), "menu.option" + input, input, ctx)
  {
    var reg := MainRegistry();
    assert StartKey in reg && reg[StartKey].next == StartNext by { MainRegistryEntries(); }
    StartOptionsLeadIn(reg, input, mode, ctx);
  }

  /** Option 4 of the start state, in any registry that holds it and the
      emergency state. */
  lemma EmergencyFromStartIn(reg: map<string, StateConfig>, mode: MatchMode, ctx: Context)
    requires StartKey in reg && reg[StartKey].next == StartNext
    requires "menu.option4" in reg && reg["menu.option4"].run == Emergency
    ensures Step(reg, mode, StartKey, "4", ctx) == Replied("menu.option4", Show(End(EmergencyNumbers)))
  {
    StartTable("4", mode);
    StepFollowsTable(reg, mode, StartKey, "4", ctx, "menu.option4");
  }

  /** Emergency is reachable from the start menu by 4 whoever calls. */
  lemma EmergencyFromStart(mode: MatchMode, ctx: Context)
    ensures Step(MainRegistry(), mode, StartKey, "4", ctx) == Replied("menu.option4", Show(End(EmergencyNumbers)))
  {
    var reg := MainRegistry();
    assert StartKey in reg && reg[StartKey].next == StartNext by { MainRegistryEntries(); }
    assert "menu.option4" in reg && reg["menu.option4"].run == Emergency by { MainRegistryEntries(); }
    EmergencyFromStartIn(reg, mode, ctx);
  }

  /** A state whose table sends the input to an unregistered name, in any
      registry. */
  lemma MissingTargetIn(reg: map<string, StateConfig>, mode: MatchMode, current: string, input: string,
                        ctx: Context, target: string)
    requires current in reg && Resolve(reg[current].next, input, mode) == Some(target)
    requires target !in reg
    ensures Step(reg, mode, current, input, ctx) == UnknownState(target)
  {
    StepFollowsTable(reg, mode, current, input, ctx, target);
  }

  /** Choosing 4, back to the menu, in the update options reaches a state
      that does not exist. */
  lemma BackToMenuReachesMissingState(mode: MatchMode, ctx: Context)
    ensures Step(MainRegistry(), mode, "menu.option6", "4", ctx) == UnknownState("start")
  {
    var reg := MainRegistry();
    assert "menu.option6" in reg && reg["menu.option6"].next == Option6Next by { MainRegistryEntries(); }
    assert "start" !in reg by { MainRegistryEntries(); }
    Option6Table("4", mode);
    MissingTargetIn(reg, mode, "menu.option6", "4", ctx, "start");
  }

  /** Answering the diabetes question with 1, 2 or 3 reaches
      "registration.complete", which does not exist, so no registration is
      ever completed. */
  lemma DiabetesAnswerReachesMissingState(input: string, mode: MatchMode, ctx: Context)
    requires input in ["1", "2", "3"]
    ensures Step(MainRegistry(), mode, "registration.diabetes", input, ctx) == UnknownState("registration.complete")
  {
    var reg := MainRegistry();
    assert "registration.diabetes" in reg && reg["registration.diabetes"].next == DiabetesNext by {
      MainRegistryEntries();
    }
    assert "registration.complete" !in reg by { MainRegistryEntries(); }
    QuestionTables(input, mode);
    MissingTargetIn(reg, mode, "registration.diabetes", input, ctx, "registration.complete");
  }

  /** A date-shaped input reads as its day to parseInt. */
  lemma ParseIntOfDate(input: string)
    requires DateShaped(input)
    ensures ParseInt(input) == Some(DecimalValue(input[..2]))
  {
    assert input == input[..2] + input[2..];
    assert AllDigits(input[..2]);
    ParseIntReadsDigitPrefix(input[..2], input[2..]);
  }

  /** The age state's routing of a date, in any registry that holds the age
      and delivery-date states. */
  lemma AgeStateRoutesDateIn(reg: map<string, StateConfig>, input: string, ctx: Context)
    requires "registration.age" in reg && reg["registration.age"] == StateConfig(CollectAge, AgeNext)
    requires "registration.edd" in reg && reg["registration.edd"].run == CollectEdd
    requires DateShaped(input)
    ensures Step(reg, Anchored, "registration.age", input, ctx)
              == Replied("registration.edd", CollectEddStep(input, ctx))
    ensures Step(reg, Unanchored, "registration.age", input, ctx)
              == Replied("registration.age", CollectAgeStep(input))
  {
    DateRouteDependsOnMode(input);
    StepFollowsTable(reg, Anchored, "registration.age", input, ctx, "registration.edd");
    StepFollowsTable(reg, Unanchored, "registration.age", input, ctx, "registration.age");
    AgeStepRepliesWhereRun(reg, "registration.age", input, ctx);
  }

  /** After the age, a delivery date typed as DD-MM-YYYY reaches the
      delivery-date step when keys match the whole input. When they match
      anywhere in it, the digits key takes the date back to the age step,
      which reads the day as an age (`ParseIntOfDate`), and the delivery date
      can never be entered. */
  lemma AgeStateRoutesDate(input: string, ctx: Context)
    requires DateShaped(input)
    ensures Step(MainRegistry(), Anchored, "registration.age", input, ctx)
              == Replied("registration.edd", CollectEddStep(input, ctx))
    ensures Step(MainRegistry(), Unanchored, "registration.age", input, ctx)
              == Replied("registration.age", CollectAgeStep(input))
  {
    var reg := MainRegistry();
    assert "registration.age" in reg && reg["registration.age"] == StateConfig(CollectAge, AgeNext) by {
      MainRegistryEntries();
    }
    assert "registration.edd" in reg && reg["registration.edd"].run == CollectEdd by { MainRegistryEntries(); }
    AgeStateRoutesDateIn(reg, input, ctx);
  }

  /** LGA choice after the name, in any registry that holds the name and LGA
      states. */
  lemma LgaPickedAfterNameIn(reg: map<string, StateConfig>, n: nat, mode: MatchMode, ctx: Context)
    requires "registration.name" in reg && reg["registration.name"].next == NameNext
    requires "registration.lga" in reg && reg["registration.lga"].run == CollectLga
    requires 1 <= n <= 9
    ensures Step(reg, mode, "registration.name", KanoLgas()[n - 1].id, ctx)
              == Replied("registration.lga", Output(Con(AgePrompt), LgaChosen(KanoLgas()[n - 1].name), [], None))
  {
    var input := KanoLgas()[n - 1].id;
    assert input in ["1", "2", "3", "4", "5", "6", "7", "8", "9"];
    NameTable(input, mode);
    LgaByListedId(n);
    StepFollowsTable(reg, mode, "registration.name", input, ctx, "registration.lga");
  }

  /** Picking LGA number n after giving the name records that LGA and asks
      for the age. */
  lemma LgaPickedAfterName(n: nat, mode: MatchMode, ctx: Context)
    requires 1 <= n <= 9
    ensures Step(MainRegistry(), mode, "registration.name", KanoLgas()[n - 1].id, ctx)
              == Replied("registration.lga", Output(Con(AgePrompt), LgaChosen(KanoLgas()[n - 1].name), [], None))
  {
    var reg := MainRegistry();
    assert "registration.name" in reg && reg["registration.name"].next == NameNext by { MainRegistryEntries(); }
    assert "registration.lga" in reg && reg["registration.lga"].run == CollectLga by { MainRegistryEntries(); }
    LgaPickedAfterNameIn(reg, n, mode, ctx);
  }
}
