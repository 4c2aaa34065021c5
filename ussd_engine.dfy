/** The dialog engine the menus are registered with. A menu is a registry of
    named states; each state has a handler, which reads this turn's input and
    answers with a CON (continue) or END (terminate) reply, and an ordered
    table from input patterns to the name of the next state. */
module UssdEngine {
  import opened Wrappers
  import opened JsSemantics
  import opened PhoneFormatter
  import opened RiskScoring

  // ------------------------------------------------------------- patterns

  /** The key the start state is registered under. */
  const StartKey: string := "__start__"

  /** The keys of a `next` table: a plain key matches that exact input; the
      keys starting with `*` are `*` itself (any input), `*\d+` (digits) and
      `*[0-9]{2}-[0-9]{2}-[0-9]{4}` (a DD-MM-YYYY date). */
  datatype Pattern = Literal(text: string) | AnyInput | Digits | DateShape

  datatype Transition = Transition(pattern: Pattern, target: string)

  /** Whether a regular-expression key must match the whole input
      (`Anchored`) or some part of it (`Unanchored`). */
  datatype MatchMode = Anchored | Unanchored

  /** Two digits, '-', two digits, '-', four digits. */
  predicate DateShaped(s: string)
  {
    |s| == 10 && IsDigit(s[0]) && IsDigit(s[1]) && s[2] == '-'
    && IsDigit(s[3]) && IsDigit(s[4]) && s[5] == '-' && AllDigits(s[6..])
  }

  /** A date shape starting at position i. */
  predicate DateShapedAt(s: string, i: int)
  {
    0 <= i <= |s| - 10 && DateShaped(s[i..i + 10])
  }

  /** Whether a key matches the input. In either mode a digits key needs a
      digit in the input and a date key at least ten characters. */
  predicate Matches(p: Pattern, input: string, mode: MatchMode)
    ensures Matches(p, input, mode) && p.Digits? ==> exists i :: 0 <= i < |input| && IsDigit(input[i])
    ensures Matches(p, input, mode) && p.DateShape? ==> |input| >= 10
  {
    match p
    case Literal(text) => input == text
    case AnyInput => true
    case Digits =>
      if mode == Anchored then input != [] && IsDigit(input[0]) && AllDigits(input)
      else exists i :: 0 <= i < |input| && IsDigit(input[i])
    case DateShape =>
      if mode == Anchored then DateShaped(input)
      else exists i :: 0 <= i <= |input| - 10 && DateShapedAt(input, i)
  }

  /** A key that matches the whole input also matches part of it. */
  lemma AnchoredMatchIsUnanchoredMatch(p: Pattern, input: string)
    requires Matches(p, input, Anchored)
    ensures Matches(p, input, Unanchored)
  {
    if p.Digits? {
      assert IsDigit(input[0]);
    } else if p.DateShape? {
      assert input[0..10] == input;
      assert DateShapedAt(input, 0);
    }
  }

  /** The target of the first transition, in declaration order, whose
      pattern matches the input; `None` when no pattern does. */
  function Resolve(next: seq<Transition>, input: string, mode: MatchMode): (r: Option<string>)
    ensures r.Some? ==>
              exists i :: 0 <= i < |next| && next[i].target == r.value
                          && Matches(next[i].pattern, input, mode)
                          && forall j :: 0 <= j < i ==> !Matches(next[j].pattern, input, mode)
  {
    if next == [] then None
    else if Matches(next[0].pattern, input, mode) then Some(next[0].target)
    else
      var r := Resolve(next[1..], input, mode);
      if r.Some? then
        var i :| 0 <= i < |next[1..]| && next[1..][i].target == r.value
                 && Matches(next[1..][i].pattern, input, mode)
                 && forall j :: 0 <= j < i ==> !Matches(next[1..][j].pattern, input, mode);
        assert next[i + 1] == next[1..][i];
        assert forall j :: 0 <= j < i + 1 ==> !Matches(next[j].pattern, input, mode) by {
          forall j | 0 <= j < i + 1
            ensures !Matches(next[j].pattern, input, mode)
          {
            if j > 0 { assert next[j] == next[1..][j - 1]; }
          }
        }
        r
      else r
  }

  /** The first matching transition is the one taken. */
  lemma {:induction false} ResolveTakesFirstMatch(next: seq<Transition>, input: string, mode: MatchMode, i: nat)
    requires i < |next| && Matches(next[i].pattern, input, mode)
    requires forall j :: 0 <= j < i ==> !Matches(next[j].pattern, input, mode)
    ensures Resolve(next, input, mode) == Some(next[i].target)
  {
    if i > 0 {
      assert !Matches(next[0].pattern, input, mode);
      assert next[1..][i - 1] == next[i];
      ResolveTakesFirstMatch(next[1..], input, mode, i - 1);
    }
  }

  /** With no matching pattern there is no target. */
  lemma {:induction false} ResolveWithoutMatch(next: seq<Transition>, input: string, mode: MatchMode)
    requires forall j :: 0 <= j < |next| ==> !Matches(next[j].pattern, input, mode)
    ensures Resolve(next, input, mode) == None
  {
    if next != [] {
      assert forall j :: 0 <= j < |next[1..]| ==> next[1..][j] == next[j + 1];
      ResolveWithoutMatch(next[1..], input, mode);
    }
  }

  /** A table of plain keys all leading to one state. */
  function LiteralsTo(keys: seq<string>, target: string): (next: seq<Transition>)
    ensures |next| == |keys|
    ensures forall i :: 0 <= i < |keys| ==> next[i] == Transition(Literal(keys[i]), target)
  {
    if keys == [] then [] else [Transition(Literal(keys[0]), target)] + LiteralsTo(keys[1..], target)
  }

  /** A table of plain keys leads to its target exactly for those keys. */
  lemma {:induction false} LiteralsToResolves(keys: seq<string>, target: string, input: string, mode: MatchMode)
    ensures Resolve(LiteralsTo(keys, target), input, mode)
              == if input in keys then Some(target) else None
  {
    if keys != [] {
      var next := LiteralsTo(keys, target);
      assert next[1..] == LiteralsTo(keys[1..], target);
      LiteralsToResolves(keys[1..], target, input, mode);
      assert input in keys <==> input == keys[0] || input in keys[1..];
    }
  }

  // --------------------------------------------------------------- replies

  /** The three vaccination schedules of the vaccination screen. */
  datatype VaccineTier = FirstTier | SecondTier | ThirdTier

  /** The screens the menus show, identified by what they say; the variable
      parts of a screen are its arguments. */
  datatype Screen =
    // registration flow
    | AlreadyRegistered
    | LgaChoices(greeting: string)
    | AgePrompt
    | AgeInvalid
    | EddPrompt
    | EddInvalid
    | ComplicationsQuestion
    | DiabetesQuestion
    | MultiplePregnancyQuestion
    // main menu
    | Welcome
    | MainOptions(userName: string)
    | RegistrationNamePrompt
    | DangerSigns
    | AboutUs
    | VaccinationInfo(tier: VaccineTier)
    | CallbackAccepted(callbackPhone: string)
    | RegisterForCallback
    | EmergencyNumbers
    | RegisterFirst
    | ProfileDetails(phone: string, shownName: string, shownLga: string, weekText: string, riskText: string)
    | UpdateOptions
    | NewNamePrompt
    | NameUpdated(newName: string)
    | NameUpdateFailed
    | NewLgaPrompt
    | LgaUpdated(newLga: string)
    | LgaUpdateFailed
    | NewWeekPrompt
    | WeekNotANumber
    | WeekUpdated(newWeek: int)
    | WeekUpdateFailed

  /** `menu.con(...)` keeps the session open; `menu.end(...)` closes it. */
  datatype Reply = Con(screen: Screen) | End(screen: Screen)

  /** A value a registration step reads from its input. */
  datatype Captured =
    | Nothing
    | NameGiven(name: string)
    | LgaChosen(lga: string)
    | AgeGiven(age: int)
    | EddGiven(edd: int)
    | HistoryGiven(previousComplications: bool, firstPregnancy: bool)
    | DiabetesGiven(gestationalDiabetes: bool)

  /** A profile update requested from the user store. */
  datatype Update = SetName(name: string) | SetLga(lga: string) | SetWeek(week: int)

  /** An entry of the event log: its name and the phone number and session
      it was logged for. */
  datatype Event = Event(name: string, phoneNumber: string, sessionId: string)

  /** What one handler run produces: the reply, the value read this turn, the
      events logged and the update requested. */
  datatype Output = Output(reply: Reply, captured: Captured, events: seq<Event>, update: Option<Update>)

  /** A reply with nothing else happening. */
  function Show(reply: Reply): (out: Output)
    ensures out.reply == reply && out.captured == Nothing && out.events == [] && out.update == None
  {
    Output(reply, Nothing, [], None)
  }

  // ------------------------------------------------------------ the users

  /** A stored user as the menus read it; absent columns are `None`. */
  datatype UserRecord = UserRecord(
    phoneNumber: string,
    name: Option<string>,
    lga: Option<string>,
    currentWeek: Option<int>,
    riskProfile: Option<RiskLevel>)

  /** Everything a handler may consult besides its input: the gateway's
      phone number and session, the stored users keyed by normalised phone
      number, the current instant in ms, the local time zone's offset from
      UTC in ms, and whether a profile update is accepted by the store. */
  datatype Context = Context(
    phoneNumber: string,
    sessionId: string,
    users: map<string, UserRecord>,
    now: int,
    tzOffset: int,
    updateSucceeds: bool)

  /** The gateway's number normalises and a user is stored under it. */
  predicate IsStored(ctx: Context)
  {
    FormatPhoneNumber(ctx.phoneNumber).Success? && FormatPhoneNumber(ctx.phoneNumber).value in ctx.users
  }

  /** The user stored under the gateway's normalised number. */
  function StoredUser(ctx: Context): UserRecord
    requires IsStored(ctx)
  {
    ctx.users[FormatPhoneNumber(ctx.phoneNumber).value]
  }

  /** The gateway's number normalises but no user is stored under it. */
  predicate IsNew(ctx: Context)
  {
    FormatPhoneNumber(ctx.phoneNumber).Success? && FormatPhoneNumber(ctx.phoneNumber).value !in ctx.users
  }

  /** `findByPhone`: the number is normalised first, which throws on a number
      that does not normalise. */
  function FindByPhone(ctx: Context): (r: Result<Option<UserRecord>, PhoneError>)
    ensures r.Failure? <==> FormatPhoneNumber(ctx.phoneNumber).Failure?
    ensures r.Success? ==> (r.value.Some? <==> FormatPhoneNumber(ctx.phoneNumber).value in ctx.users)
    ensures r.Success? && r.value.Some? ==>
              FormatPhoneNumber(ctx.phoneNumber).value in ctx.users
              && r.value.value == ctx.users[FormatPhoneNumber(ctx.phoneNumber).value]
  {
    match FormatPhoneNumber(ctx.phoneNumber)
    case Failure(e) => Failure(e)
    case Success(p) => Success(if p in ctx.users then Some(ctx.users[p]) else None)
  }

  /** `userExists`: a count of the users with the normalised number. */
  function UserExists(ctx: Context): (r: Result<bool, PhoneError>)
    ensures r.Failure? <==> FormatPhoneNumber(ctx.phoneNumber).Failure?
    ensures r.Success? ==> (r.value <==> FormatPhoneNumber(ctx.phoneNumber).value in ctx.users)
  {
    match FormatPhoneNumber(ctx.phoneNumber)
    case Failure(e) => Failure(e)
    case Success(p) => Success(p in ctx.users)
  }

  /** The two lookups agree: a user exists exactly when one is found. */
  lemma ExistsAgreesWithFind(ctx: Context)
    ensures UserExists(ctx).Success? <==> FindByPhone(ctx).Success?
    ensures UserExists(ctx).Success? ==> (UserExists(ctx).value <==> FindByPhone(ctx).value.Some?)
  {
  }

  /** The user store's invariant: each record is stored under its own
      phone number, the unique column `findByPhone` looks up. */
  predicate KeyedByPhone(users: map<string, UserRecord>)
  {
    forall p :: p in users ==> users[p].phoneNumber == p
  }

  /** In a store that keeps its invariant, the user found is the one whose
      phone number is the caller's number once normalised. */
  lemma FoundUserHasCallersNumber(ctx: Context)
    requires KeyedByPhone(ctx.users)
    ensures FindByPhone(ctx).Success? && FindByPhone(ctx).value.Some? ==>
              FindByPhone(ctx).value.value.phoneNumber == FormatPhoneNumber(ctx.phoneNumber).value
  {
  }

  /** Template interpolation of a possibly absent column. */
  function Shown(s: Option<string>): string
  {
    if s.Some? then s.value else "null"
  }

  // ------------------------------------------------------------ registry

  /** The handlers the states are registered with. */
  datatype Handler =
    | Greeting | DangerSignsOrRegister | VaccinesOrAbout | Callback | Emergency | Profile
    | UpdateMenu | AskNewName | ConfirmName | AskNewLga | ConfirmLga | AskNewWeek | ConfirmWeek
    | CollectName | CollectLga | CollectAge | CollectEdd | CollectComplications | CollectDiabetes

  /** A state: its handler and its `next` table. */
  datatype StateConfig = StateConfig(run: Handler, next: seq<Transition>)

  /** Registering one more state on top of a set of registrations. */
  lemma UnionUpdate(m: map<string, StateConfig>, r: map<string, StateConfig>, k: string, v: StateConfig)
    ensures (m + r)[k := v] == m + r[k := v]
  {
  }

  /** The menu object the states are registered on. */
  class UssdMenu {
    var states: map<string, StateConfig>

    constructor()
      ensures states == map[]
    {
      states := map[];
    }

    /** `startState(options)` */
    method StartState(config: StateConfig)
      modifies this
      ensures states == old(states)[StartKey := config]
    {
      states := states[StartKey := config];
    }

    /** `state(name, options)`: a later registration under the same name
        replaces the earlier one. */
    method State(name: string, config: StateConfig)
      modifies this
      ensures states == old(states)[name := config]
    {
      states := states[name := config];
    }
  }
}
