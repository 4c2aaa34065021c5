/** The main menu: the start state, the six options and the profile-update
    states, built on one menu object together with the registration flow. */
module MainMenu {
  import opened Wrappers
  import opened JsSemantics
  import opened PhoneFormatter
  import opened RiskScoring
  import opened UssdEngine
  import opened RegistrationMenu

  // -------------------------------------------------------------- handlers

  /** The start state: the register / about menu for a number no user is
      stored under, the six options, greeting the user by the stored name,
      for one that is. Nothing is read or logged. */
  function GreetingStep(ctx: Context): (r: Result<Output, PhoneError>)
    ensures r.Failure? <==> FormatPhoneNumber(ctx.phoneNumber).Failure?
    ensures IsNew(ctx) ==> r == Success(Show(Con(Welcome)))
    ensures IsStored(ctx) ==> r == Success(Show(Con(MainOptions(Shown(StoredUser(ctx).name)))))
  {
    match FindByPhone(ctx)
    case Failure(e) => Failure(e)
    case Success(None) => Success(Show(Con(Welcome)))
    case Success(Some(user)) => Success(Show(Con(MainOptions(Shown(user.name)))))
  }

  /** menu.option1: the name prompt of the registration for a new user, and
      for a registered one the danger signs, which end the session. */
  function DangerSignsOrRegisterStep(ctx: Context): (r: Result<Output, PhoneError>)
    ensures r.Failure? <==> FormatPhoneNumber(ctx.phoneNumber).Failure?
    ensures IsNew(ctx) ==> r == Success(Show(Con(RegistrationNamePrompt)))
    ensures IsStored(ctx) ==> r == Success(Show(End(DangerSigns)))
  {
    match FindByPhone(ctx)
    case Failure(e) => Failure(e)
    case Success(None) => Success(Show(Con(RegistrationNamePrompt)))
    case Success(Some(_)) => Success(Show(End(DangerSigns)))
  }

  /** `user.currentWeek <= 12` and `<= 24`, where a missing week (null)
      compares as 0: exactly one schedule is chosen, the first up to week
      12, the second from 13 to 24, the third from 25. */
  function VaccineTierFor(currentWeek: Option<int>): (t: VaccineTier)
    ensures currentWeek.None? ==> t == FirstTier
    ensures currentWeek.Some? ==>
              (t == FirstTier <==> currentWeek.value <= 12)
              && (t == SecondTier <==> 13 <= currentWeek.value <= 24)
              && (t == ThirdTier <==> currentWeek.value >= 25)
  {
    var week := if currentWeek.Some? then currentWeek.value else 0;
    if week <= 12 then FirstTier
    else if week <= 24 then SecondTier
    else ThirdTier
  }

  /** menu.option2: about us for a new user, the vaccination schedule of the
      stored week otherwise; either way the session ends. */
  function VaccinesOrAboutStep(ctx: Context): (r: Result<Output, PhoneError>)
    ensures r.Failure? <==> FormatPhoneNumber(ctx.phoneNumber).Failure?
    ensures IsNew(ctx) ==> r == Success(Show(End(AboutUs)))
    ensures IsStored(ctx) ==>
              r == Success(Show(End(VaccinationInfo(VaccineTierFor(StoredUser(ctx).currentWeek)))))
  {
    match FindByPhone(ctx)
    case Failure(e) => Failure(e)
    case Success(None) => Success(Show(End(AboutUs)))
    case Success(Some(user)) => Success(Show(End(VaccinationInfo(VaccineTierFor(user.currentWeek)))))
  }

  /** menu.option3: a registered user's callback is accepted, quoting the
      number as the gateway sent it rather than the normalised one the user
      was found under; a new user is asked to register. */
  function CallbackStep(ctx: Context): (r: Result<Output, PhoneError>)
    ensures r.Failure? <==> FormatPhoneNumber(ctx.phoneNumber).Failure?
    ensures IsNew(ctx) ==> r == Success(Show(End(RegisterForCallback)))
    ensures IsStored(ctx) ==> r == Success(Show(End(CallbackAccepted(ctx.phoneNumber))))
  {
    match FindByPhone(ctx)
    case Failure(e) => Failure(e)
    case Success(None) => Success(Show(End(RegisterForCallback)))
    case Success(Some(_)) => Success(Show(End(CallbackAccepted(ctx.phoneNumber))))
  }

  /** menu.option4: the emergency numbers for every caller; nothing is
      looked up, read, logged or requested, and the session ends. */
  function EmergencyStep(): (r: Output)
    ensures r.reply == End(EmergencyNumbers)
    ensures r.captured == Nothing && r.events == [] && r.update == None
  {
    Show(End(EmergencyNumbers))
  }

  /** `currentWeek ? "Mako " + currentWeek : "Ba a sani ba"`: a missing week
      and week 0 are both unknown, and no known week reads as unknown. */
  function WeekText(currentWeek: Option<int>): (text: string)
    ensures text == "Ba a sani ba" <==> currentWeek.None? || currentWeek.value == 0
  {
    if currentWeek.Some? && currentWeek.value != 0 then
      var text := "Mako " + IntToDecimal(currentWeek.value);
      assert text[0] == 'M';
      text
    else "Ba a sani ba"
  }

  /** The risk line of the profile: only the level shown matters, and
      anything but high or moderate, a missing profile included, reads as
      low. */
  function RiskText(riskProfile: Option<RiskLevel>): (text: string)
    ensures LevelShown(riskProfile) == High ==> text == "🔴 BABBA (High)"
    ensures LevelShown(riskProfile) == Moderate ==> text == "🟡 MATSAKAICI (Moderate)"
    ensures LevelShown(riskProfile) == Low ==> text == "🟢 KARAMI (Low)"
  {
    if riskProfile == Some(High) then "🔴 BABBA (High)"
    else if riskProfile == Some(Moderate) then "🟡 MATSAKAICI (Moderate)"
    else "🟢 KARAMI (Low)"
  }

  /** The level a stored profile counts as. */
  function LevelShown(p: Option<RiskLevel>): RiskLevel
  {
    if p.Some? then p.value else Low
  }

  /** menu.option5: the stored number, name, LGA, week and risk of the user
      found, "null" for a missing name or LGA; a new user is asked to
      register. The session ends either way. */
  function ProfileStep(ctx: Context): (r: Result<Output, PhoneError>)
    ensures r.Failure? <==> FormatPhoneNumber(ctx.phoneNumber).Failure?
    ensures IsNew(ctx) ==> r == Success(Show(End(RegisterFirst)))
    ensures IsStored(ctx) ==>
              var user := StoredUser(ctx);
              r == Success(Show(End(ProfileDetails(user.phoneNumber, Shown(user.name), Shown(user.lga),
                                                   WeekText(user.currentWeek), RiskText(user.riskProfile)))))
  {
    match FindByPhone(ctx)
    case Failure(e) => Failure(e)
    case Success(None) => Success(Show(End(RegisterFirst)))
    case Success(Some(user)) =>
      Success(Show(End(ProfileDetails(user.phoneNumber, Shown(user.name), Shown(user.lga),
                                      WeekText(user.currentWeek), RiskText(user.riskProfile)))))
  }

  /** menu.option6: the update options for a registered user; a new user is
      asked to register and the session ends. */
  function UpdateMenuStep(ctx: Context): (r: Result<Output, PhoneError>)
    ensures r.Failure? <==> FormatPhoneNumber(ctx.phoneNumber).Failure?
    ensures IsNew(ctx) ==> r == Success(Show(End(RegisterFirst)))
    ensures IsStored(ctx) ==> r == Success(Show(Con(UpdateOptions)))
  {
    match FindByPhone(ctx)
    case Failure(e) => Failure(e)
    case Success(None) => Success(Show(End(RegisterFirst)))
    case Success(Some(_)) => Success(Show(Con(UpdateOptions)))
  }

  /** update.name.confirm: the input is the new name; the update is always
      requested, and the session ends confirming the name exactly when the
      store accepts it. */
  function ConfirmNameStep(input: string, ctx: Context): (r: Output)
    ensures r.update == Some(SetName(input)) && r.reply.End?
    ensures r.reply == End(NameUpdated(input)) <==> ctx.updateSucceeds
    ensures !ctx.updateSucceeds ==> r.reply == End(NameUpdateFailed)
  {
    Output(if ctx.updateSucceeds then End(NameUpdated(input)) else End(NameUpdateFailed),
           Nothing, [], Some(SetName(input)))
  }

  /** update.lga.confirm: as for the name, with the input as the new LGA. */
  function ConfirmLgaStep(input: string, ctx: Context): (r: Output)
    ensures r.update == Some(SetLga(input)) && r.reply.End?
    ensures r.reply == End(LgaUpdated(input)) <==> ctx.updateSucceeds
    ensures !ctx.updateSucceeds ==> r.reply == End(LgaUpdateFailed)
  {
    Output(if ctx.updateSucceeds then End(LgaUpdated(input)) else End(LgaUpdateFailed),
           Nothing, [], Some(SetLga(input)))
  }

  /** update.week.confirm: a week that parseInt cannot read ends the session
      with the error text and no update; one it can read is the week
      requested, confirmed exactly when the store accepts it. */
  function ConfirmWeekStep(input: string, ctx: Context): (r: Output)
    ensures r.update.None? <==> ParseInt(input).None?
    ensures ParseInt(input).None? ==> r == Show(End(WeekNotANumber))
    ensures ParseInt(input).Some? ==>
              r.update == Some(SetWeek(ParseInt(input).value))
              && r.reply == if ctx.updateSucceeds then End(WeekUpdated(ParseInt(input).value)) else End(WeekUpdateFailed)
  {
    var week := ParseInt(input);
    if week.None? then Show(End(WeekNotANumber))
    else Output(if ctx.updateSucceeds then End(WeekUpdated(week.value)) else End(WeekUpdateFailed),
                Nothing, [], Some(SetWeek(week.value)))
  }

  // ---------------------------------------------------------------- tables

  const StartNext: seq<Transition> :=
    [Transition(Literal("1"), "menu.option1"), Transition(Literal("2"), "menu.option2"),
     Transition(Literal("3"), "menu.option3"), Transition(Literal("4"), "menu.option4"),
     Transition(Literal("5"), "menu.option5"), Transition(Literal("6"), "menu.option6")]
  const Option1Next: seq<Transition> := [Transition(AnyInput, "registration.name")]
  /** "4" leads to "start", a name no state is registered under. */
  const Option6Next: seq<Transition> :=
    [Transition(Literal("1"), "update.name"), Transition(Literal("2"), "update.lga"),
     Transition(Literal("3"), "update.week"), Transition(Literal("4"), "start")]
  const UpdateNameNext: seq<Transition> := [Transition(AnyInput, "update.name.confirm")]
  const UpdateLgaNext: seq<Transition> := [Transition(AnyInput, "update.lga.confirm")]
  const UpdateWeekNext: seq<Transition> := [Transition(AnyInput, "update.week.confirm")]

  /** The states `mainMenu` registers itself. */
  function MainStates(): map<string, StateConfig>
  {
    map[
      StartKey := StateConfig(Greeting, StartNext),
      "menu.option1" := StateConfig(DangerSignsOrRegister, Option1Next),
      "menu.option2" := StateConfig(VaccinesOrAbout, []),
      "menu.option3" := StateConfig(Callback, []),
      "menu.option4" := StateConfig(Emergency, []),
      "menu.option5" := StateConfig(Profile, []),
      "menu.option6" := StateConfig(UpdateMenu, Option6Next),
      "update.name" := StateConfig(AskNewName, UpdateNameNext),
      "update.name.confirm" := StateConfig(ConfirmName, []),
      "update.lga" := StateConfig(AskNewLga, UpdateLgaNext),
      "update.lga.confirm" := StateConfig(ConfirmLga, []),
      "update.week" := StateConfig(AskNewWeek, UpdateWeekNext),
      "update.week.confirm" := StateConfig(ConfirmWeek, [])
    ]
  }

  /** Every state of the finished menu. */
  function MainRegistry(): map<string, StateConfig>
  {
    MainStates() + RegistrationRegistry()
  }

  /** mainMenu(): a new menu with the main states and then the registration
      states registered on it. */
  method BuildMainMenu() returns (menu: UssdMenu)
    ensures fresh(menu)
    ensures menu.states == MainRegistry()
  {
    menu := new UssdMenu();
    menu.StartState(StateConfig(Greeting, StartNext));
    menu.State("menu.option1", StateConfig(DangerSignsOrRegister, Option1Next));
    menu.State("menu.option2", StateConfig(VaccinesOrAbout, []));
    menu.State("menu.option3", StateConfig(Callback, []));
    menu.State("menu.option4", StateConfig(Emergency, []));
    menu.State("menu.option5", StateConfig(Profile, []));
    menu.State("menu.option6", StateConfig(UpdateMenu, Option6Next));
    menu.State("update.name", StateConfig(AskNewName, UpdateNameNext));
    menu.State("update.name.confirm", StateConfig(ConfirmName, []));
    menu.State("update.lga", StateConfig(AskNewLga, UpdateLgaNext));
    menu.State("update.lga.confirm", StateConfig(ConfirmLga, []));
    menu.State("update.week", StateConfig(AskNewWeek, UpdateWeekNext));
    menu.State("update.week.confirm", StateConfig(ConfirmWeek, []));
    RegistrationStates(menu);
  }

  // ------------------------------------------------------------ properties

  /** Option k of the start menu leads to menu.option k, for k from 1 to 6;
      any other input matches nothing. */
  lemma StartTable(input: string, mode: MatchMode)
    ensures input == "1" ==> Resolve(StartNext, input, mode) == Some("menu.option1")
    ensures input == "2" ==> Resolve(StartNext, input, mode) == Some("menu.option2")
    ensures input == "3" ==> Resolve(StartNext, input, mode) == Some("menu.option3")
    ensures input == "4" ==> Resolve(StartNext, input, mode) == Some("menu.option4")
    ensures input == "5" ==> Resolve(StartNext, input, mode) == Some("menu.option5")
    ensures input == "6" ==> Resolve(StartNext, input, mode) == Some("menu.option6")
    ensures input !in ["1", "2", "3", "4", "5", "6"] ==> Resolve(StartNext, input, mode) == None
  {
    var keys := ["1", "2", "3", "4", "5", "6"];
    assert forall j :: 0 <= j < 6 ==> StartNext[j].pattern == Literal(keys[j]);
    if input in keys {
      var k :| 0 <= k < 6 && keys[k] == input;
      ResolveTakesFirstMatch(StartNext, input, mode, k);
    } else {
      ResolveWithoutMatch(StartNext, input, mode);
    }
  }

  /** Whatever is typed after option 1's name prompt goes to
      registration.name. */
  lemma Option1Table(input: string, mode: MatchMode)
    ensures Resolve(Option1Next, input, mode) == Some("registration.name")
  {
    ResolveTakesFirstMatch(Option1Next, input, mode, 0);
  }

  /** The schedule shown never goes back as the pregnancy advances. */
  lemma VaccineTierMonotone(w1: int, w2: int)
    requires w1 <= w2
    ensures TierIndex(VaccineTierFor(Some(w1))) <= TierIndex(VaccineTierFor(Some(w2)))
  {
  }

  function TierIndex(t: VaccineTier): nat
  {
    match t
    case FirstTier => 0
    case SecondTier => 1
    case ThirdTier => 2
  }

  /** A known week is shown as "Mako " and its decimal form, which reads
      back as the same week; a missing week and week 0 are unknown. */
  lemma WeekTextRoundTrip(currentWeek: Option<int>)
    ensures currentWeek.None? || currentWeek.value == 0 ==> WeekText(currentWeek) == "Ba a sani ba"
    ensures currentWeek.Some? && currentWeek.value != 0 ==>
              StartsWith(WeekText(currentWeek), "Mako ")
              && ParseInt(WeekText(currentWeek)[5..]) == currentWeek
  {
    if currentWeek.Some? && currentWeek.value != 0 {
      var t := WeekText(currentWeek);
      assert t[..5] == "Mako ";
      assert t[5..] == IntToDecimal(currentWeek.value);
      ParseIntRoundTrip(currentWeek.value);
    }
  }

  /** The risk line tells high, moderate and low apart, and a profile that
      is missing reads as low. */
  lemma RiskTextDistinguishesLevels(p: Option<RiskLevel>, q: Option<RiskLevel>)
    ensures RiskText(None) == RiskText(Some(Low))
    ensures RiskText(p) == RiskText(q) <==> LevelShown(p) == LevelShown(q)
  {
    assert "🔴 BABBA (High)"[2] != "🟡 MATSAKAICI (Moderate)"[2];
    assert "🔴 BABBA (High)"[2] != "🟢 KARAMI (Low)"[2];
    assert "🟡 MATSAKAICI (Moderate)"[2] != "🟢 KARAMI (Low)"[2];
  }

  /** In the update options 1, 2 and 3 lead to the update states and 4 to
      "start"; nothing else matches. After each update prompt any input
      goes to its confirmation state. */
  lemma Option6Table(input: string, mode: MatchMode)
    ensures Resolve(Option6Next, input, mode)
              == if input == "1" then Some("update.name")
                 else if input == "2" then Some("update.lga")
                 else if input == "3" then Some("update.week")
                 else if input == "4" then Some("start")
                 else None
    ensures Resolve(UpdateNameNext, input, mode) == Some("update.name.confirm")
    ensures Resolve(UpdateLgaNext, input, mode) == Some("update.lga.confirm")
    ensures Resolve(UpdateWeekNext, input, mode) == Some("update.week.confirm")
  {
    var keys := ["1", "2", "3", "4"];
    assert forall j :: 0 <= j < 4 ==> Option6Next[j].pattern == Literal(keys[j]);
    if input in keys {
      var k :| 0 <= k < 4 && keys[k] == input;
      ResolveTakesFirstMatch(Option6Next, input, mode, k);
    } else {
      ResolveWithoutMatch(Option6Next, input, mode);
    }
  }

  /** A week typed as a decimal number is the week requested. */
  lemma ConfirmWeekOfDecimal(week: int, ctx: Context)
    ensures ConfirmWeekStep(IntToDecimal(week), ctx).update == Some(SetWeek(week))
  {
    ParseIntRoundTrip(week);
  }

  lemma EntriesOfMainStates(s0: StateConfig, s1: StateConfig, s2: StateConfig, s3: StateConfig,
                    s4: StateConfig, s5: StateConfig, s6: StateConfig, s7: StateConfig,
                    s8: StateConfig, s9: StateConfig, s10: StateConfig, s11: StateConfig,
                    s12: StateConfig)
    ensures var m := map[StartKey := s0, "menu.option1" := s1, "menu.option2" := s2, "menu.option3" := s3,
                 "menu.option4" := s4, "menu.option5" := s5, "menu.option6" := s6,
                 "update.name" := s7, "update.name.confirm" := s8, "update.lga" := s9,
                 "update.lga.confirm" := s10, "update.week" := s11, "update.week.confirm" := s12];
            StartKey in m && m[StartKey] == s0 &&
            "menu.option1" in m && m["menu.option1"] == s1 &&
            "menu.option2" in m && m["menu.option2"] == s2 &&
            "menu.option3" in m && m["menu.option3"] == s3 &&
            "menu.option4" in m && m["menu.option4"] == s4 &&
            "menu.option5" in m && m["menu.option5"] == s5 &&
            "menu.option6" in m && m["menu.option6"] == s6 &&
            "update.name" in m && m["update.name"] == s7 &&
            "update.name.confirm" in m && m["update.name.confirm"] == s8 &&
            "update.lga" in m && m["update.lga"] == s9 &&
            "update.lga.confirm" in m && m["update.lga.confirm"] == s10 &&
            "update.week" in m && m["update.week"] == s11 &&
            "update.week.confirm" in m && m["update.week.confirm"] == s12 &&
            "start" !in m && "registration.complete" !in m
  {
  }

  lemma EntriesOfRegistration(r0: StateConfig, r1: StateConfig, r2: StateConfig, r3: StateConfig,
                    r4: StateConfig, r5: StateConfig)
    ensures var m := map["registration.name" := r0, "registration.lga" := r1, "registration.age" := r2,
                 "registration.edd" := r3, "registration.complications" := r4,
                 "registration.diabetes" := r5];
            "registration.name" in m && m["registration.name"] == r0 &&
            "registration.lga" in m && m["registration.lga"] == r1 &&
            "registration.age" in m && m["registration.age"] == r2 &&
            "registration.edd" in m && m["registration.edd"] == r3 &&
            "registration.complications" in m && m["registration.complications"] == r4 &&
            "registration.diabetes" in m && m["registration.diabetes"] == r5 &&
            "start" !in m && "registration.complete" !in m &&
            StartKey !in m && "menu.option1" !in m && "menu.option2" !in m &&
            "menu.option3" !in m && "menu.option4" !in m && "menu.option5" !in m &&
            "menu.option6" !in m && "update.name" !in m && "update.name.confirm" !in m &&
            "update.lga" !in m && "update.lga.confirm" !in m && "update.week" !in m &&
            "update.week.confirm" !in m
  {
  }

  /** The state each registered name runs. */
  lemma MainRegistryEntries()
    ensures StartKey in MainRegistry() && MainRegistry()[StartKey] == StateConfig(Greeting, StartNext) &&
            "menu.option1" in MainRegistry() && MainRegistry()["menu.option1"] == StateConfig(DangerSignsOrRegister, Option1Next) &&
            "menu.option2" in MainRegistry() && MainRegistry()["menu.option2"] == StateConfig(VaccinesOrAbout, []) &&
            "menu.option3" in MainRegistry() && MainRegistry()["menu.option3"] == StateConfig(Callback, []) &&
            "menu.option4" in MainRegistry() && MainRegistry()["menu.option4"] == StateConfig(Emergency, []) &&
            "menu.option5" in MainRegistry() && MainRegistry()["menu.option5"] == StateConfig(Profile, []) &&
            "menu.option6" in MainRegistry() && MainRegistry()["menu.option6"] == StateConfig(UpdateMenu, Option6Next) &&
            "update.name" in MainRegistry() && MainRegistry()["update.name"] == StateConfig(AskNewName, UpdateNameNext) &&
            "update.name.confirm" in MainRegistry() && MainRegistry()["update.name.confirm"] == StateConfig(ConfirmName, []) &&
            "update.lga" in MainRegistry() && MainRegistry()["update.lga"] == StateConfig(AskNewLga, UpdateLgaNext) &&
            "update.lga.confirm" in MainRegistry() && MainRegistry()["update.lga.confirm"] == StateConfig(ConfirmLga, []) &&
            "update.week" in MainRegistry() && MainRegistry()["update.week"] == StateConfig(AskNewWeek, UpdateWeekNext) &&
            "update.week.confirm" in MainRegistry() && MainRegistry()["update.week.confirm"] == StateConfig(ConfirmWeek, []) &&
            "registration.name" in MainRegistry() && MainRegistry()["registration.name"] == StateConfig(CollectName, NameNext) &&
            "registration.lga" in MainRegistry() && MainRegistry()["registration.lga"] == StateConfig(CollectLga, LgaNext) &&
            "registration.age" in MainRegistry() && MainRegistry()["registration.age"] == StateConfig(CollectAge, AgeNext) &&
            "registration.edd" in MainRegistry() && MainRegistry()["registration.edd"] == StateConfig(CollectEdd, EddNext) &&
            "registration.complications" in MainRegistry() && MainRegistry()["registration.complications"] == StateConfig(CollectComplications, ComplicationsNext) &&
            "registration.diabetes" in MainRegistry() && MainRegistry()["registration.diabetes"] == StateConfig(CollectDiabetes, DiabetesNext)
    ensures "start" !in MainRegistry() && "registration.complete" !in MainRegistry()
  {
    EntriesOfMainStates(StateConfig(Greeting, StartNext),
                       StateConfig(DangerSignsOrRegister, Option1Next),
                       StateConfig(VaccinesOrAbout, []), StateConfig(Callback, []),
                       StateConfig(Emergency, []), StateConfig(Profile, []),
                       StateConfig(UpdateMenu, Option6Next),
                       StateConfig(AskNewName, UpdateNameNext), StateConfig(ConfirmName, []),
                       StateConfig(AskNewLga, UpdateLgaNext), StateConfig(ConfirmLga, []),
                       StateConfig(AskNewWeek, UpdateWeekNext), StateConfig(ConfirmWeek, []));
    EntriesOfRegistration(StateConfig(CollectName, NameNext), StateConfig(CollectLga, LgaNext),
                          StateConfig(CollectAge, AgeNext), StateConfig(CollectEdd, EddNext),
                          StateConfig(CollectComplications, ComplicationsNext),
                          StateConfig(CollectDiabetes, DiabetesNext));
  }

  /** Neither "start", the target of option 6's key 4, nor
      "registration.complete", the target of the diabetes step, is a state
      of the finished menu. */
  lemma MissingTargets()
    ensures "start" !in MainRegistry()
    ensures "registration.complete" !in MainRegistry()
  {
    MainRegistryEntries();
  }
}
