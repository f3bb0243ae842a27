/** The dialogue engine of the `/get_price` endpoint: one chat turn moves a
    session through the states start -> ask_scrap_type -> ask_quantity ->
    confirm_booking -> ask_address -> ask_time_slot -> address_change ->
    thank_you, storing the answers it accepts in the session.

    `Turn` is the specification of one turn as a function on session values;
    `Session` is the mutable session dictionary and `Session.Step` the turn
    as the code performs it, field by field. */
module Dialogue {
  import opened Wrappers
  import opened Text
  import opened TimeSlot
  import opened ScrapCatalog
  import opened Booking

  /** The eight labels the code assigns. */
  predicate IsKnownLabel(text: string) {
    text == "start" || text == "ask_scrap_type" || text == "ask_quantity" ||
    text == "confirm_booking" || text == "ask_address" || text == "ask_time_slot" ||
    text == "address_change" || text == "thank_you"
  }

  /** A label the `if`/`elif` chain matches none of its branches against. */
  type UnknownLabel = text: string | !IsKnownLabel(text) witness ""

  /** The value of `session["state"]`, one constructor per way the chain
      reads a stored label: the eight labels the code assigns, and any other
      label a session may carry (for instance one written by an earlier
      deployment). */
  datatype State =
    | Start | AskScrapType | AskQuantity | ConfirmBooking | AskAddress
    | AskTimeSlot | AddressChange | ThankYou
    | Unrecognised(text: UnknownLabel)

  function Label(s: State): string {
    match s
    case Start => "start"
    case AskScrapType => "ask_scrap_type"
    case AskQuantity => "ask_quantity"
    case ConfirmBooking => "confirm_booking"
    case AskAddress => "ask_address"
    case AskTimeSlot => "ask_time_slot"
    case AddressChange => "address_change"
    case ThankYou => "thank_you"
    case Unrecognised(text) => text
  }

  /** How the `if`/`elif` chain reads a stored label: a known label is its
      state, any other label is unrecognised. */
  function StateOf(text: string): (s: State)
    ensures Label(s) == text
    ensures s.Unrecognised? <==> !IsKnownLabel(text)
  {
    if text == "start" then Start
    else if text == "ask_scrap_type" then AskScrapType
    else if text == "ask_quantity" then AskQuantity
    else if text == "confirm_booking" then ConfirmBooking
    else if text == "ask_address" then AskAddress
    else if text == "ask_time_slot" then AskTimeSlot
    else if text == "address_change" then AddressChange
    else if text == "thank_you" then ThankYou
    else Unrecognised(text)
  }

  /** Every state is what the chain reads from its own label, so the
      stored label alone decides the branch taken. */
  lemma ReadsBackOwnLabel(s: State)
    ensures StateOf(Label(s)) == s
  {
    match s
    case Unrecognised(text) =>
    case _ =>
      assert IsKnownLabel(Label(s));
  }

  /** The reply of a turn, one kind per response the endpoint can give. */
  datatype Reply =
    | AskForScrapType                      // start, "yes"
    | ComeBackLater                        // start, "no"
    | AnswerYesOrNo                        // start, confirm_booking, address_change: anything else
    | PriceQuote(name: string, price: Price, unit: string)
    | MaterialNotFound
    | TotalEstimate(total: real)
    | InvalidQuantity
    | AskForAddress                        // confirm_booking, "yes"
    | AssistLater                          // confirm_booking, "no"
    | AskForTimeSlot
    | BookingConfirmed(bookingId: string, customerId: string, address: string, timeSlot: string,
                       material: string, quantity: real, estimate: real, agent: Agent)
    | InvalidTimeSlot
    | AskForNewAddress                     // address_change, "yes"
    | PickupConfirmed                      // address_change, "no"
    | AlreadyConfirmed                     // thank_you
    | CannotProceed                        // unrecognised state
    | ServerError                          // an exception the handler does not catch

  /** The keys the dialogue reads and writes in the session; `None` is a missing key. */
  datatype SessionData = SessionData(
    state: Option<State>,
    scrapType: Option<string>,
    price: Option<Price>,
    quantity: Option<real>,
    address: Option<string>,
    timeSlot: Option<string>,
    bookingId: Option<string>,
    customerId: Option<string>,
    agent: Option<Agent>)

  /** A session with no keys, as after `session.clear()`. */
  const EmptySession := SessionData(None, None, None, None, None, None, None, None, None)

  /** What the turn takes from outside the dialogue: the result of
      `process.extractOne`, the result of `float(user_input)` (None for a
      ValueError), the two `randint(1000, 9999)` draws and the index of
      `random.choice(agents)`. */
  datatype Environment = Environment(
    matched: Option<Match>,
    parsedQuantity: Option<real>,
    bookingNumber: int,
    customerNumber: int,
    agentIndex: int)

  /** What those library calls guarantee about their results. */
  predicate EnvironmentContract(env: Environment, input: string, catalog: Catalog) {
    MatchContract(env.matched, input, catalog) &&
    1000 <= env.bookingNumber <= 9999 &&
    1000 <= env.customerNumber <= 9999 &&
    0 <= env.agentIndex < |Roster|
  }

  datatype Outcome = Outcome(session: SessionData, reply: Reply)

  /** One call of the handler on the normalised message `input`: the session
      after the turn and the reply. */
  ghost function Turn(d: SessionData, input: string, catalog: Catalog, env: Environment): (o: Outcome)
    requires EnvironmentContract(env, input, catalog)
  {
    Dispatch(d.(state := Some(CurrentState(d))), input, catalog, env)
  }

  /** The state a turn is dispatched on: a session without one is at `start`. */
  function CurrentState(d: SessionData): State {
    if d.state.Some? then d.state.value else Start
  }

  /** The `if`/`elif` chain on the state, for the normalised input. */
  ghost function Dispatch(s: SessionData, input: string, catalog: Catalog, env: Environment): Outcome
    requires s.state.Some?
    requires EnvironmentContract(env, input, catalog)
  {
    match s.state.value
    case Start => OnYesNo(s, input, AskScrapType, AskForScrapType, ComeBackLater)
    case AskScrapType => OnScrapType(s, catalog, env.matched)
    case AskQuantity => OnQuantity(s, env.parsedQuantity)
    case ConfirmBooking => OnYesNo(s, input, AskAddress, AskForAddress, AssistLater)
    case AskAddress => OnAddress(s, input)
    case AskTimeSlot => OnTimeSlot(s, input, IsTimeSlot(input), env)
    case AddressChange => OnAddressChange(s, input)
    case ThankYou => Outcome(s, AlreadyConfirmed)
    case Unrecognised(_) => Outcome(s, CannotProceed)
  }

  /** `start` and `confirm_booking`: "yes" moves on, "no" and anything else stay. */
  function OnYesNo(s: SessionData, input: string, next: State, yes: Reply, no: Reply): Outcome {
    if IsYes(input) then Outcome(s.(state := Some(next)), yes)
    else if IsNo(input) then Outcome(s, no)
    else Outcome(s, AnswerYesOrNo)
  }

  /** `ask_scrap_type`: a match scoring above 70 stores the entry's name and price. */
  function OnScrapType(s: SessionData, catalog: Catalog, matched: Option<Match>): Outcome
    requires matched.Some? ==> matched.value.key in catalog
  {
    match matched
    case None => Outcome(s, ServerError)
    case Some(m) =>
      if m.score > 70 then
        var item := catalog[m.key];
        Outcome(s.(scrapType := Some(item.name), price := Some(item.price), state := Some(AskQuantity)),
                PriceQuote(item.name, item.price, item.unit))
      else Outcome(s, MaterialNotFound)
  }

  /** `ask_quantity`: a parsed quantity is stored before the price is converted;
      only a convertible price moves the session on. */
  function OnQuantity(s: SessionData, parsed: Option<real>): Outcome {
    match parsed
    case None => Outcome(s, InvalidQuantity)
    case Some(q) =>
      var stored := s.(quantity := Some(q));
      if s.price.None? then Outcome(stored, ServerError)
      else
        match AsFloat(s.price.value)
        case None => Outcome(stored, InvalidQuantity)
        case Some(p) => Outcome(stored.(state := Some(ConfirmBooking)), TotalEstimate(q * p))
  }

  /** `ask_address`: any text is taken as the address. */
  function OnAddress(s: SessionData, input: string): Outcome {
    Outcome(s.(address := Some(input), state := Some(AskTimeSlot)), AskForTimeSlot)
  }

  /** `ask_time_slot`, given whether `input` passed the time-slot check: an
      accepted slot books the pickup. The session is updated before the
      confirmation is composed, so a missing field surfaces as an error after
      the booking was stored. */
  function OnTimeSlot(s: SessionData, input: string, accepted: bool, env: Environment): Outcome
    requires 1000 <= env.bookingNumber <= 9999 && 1000 <= env.customerNumber <= 9999
    requires 0 <= env.agentIndex < |Roster|
  {
    if accepted then
      var bk := BookingId(env.bookingNumber);
      var cust := CustomerId(env.customerNumber);
      var chosen := Roster[env.agentIndex];
      var booked := s.(timeSlot := Some(input), state := Some(AddressChange),
                       bookingId := Some(bk), customerId := Some(cust), agent := Some(chosen));
      if !Confirmable(s) then Outcome(booked, ServerError)
      else
        var q := s.quantity.value;
        Outcome(booked, BookingConfirmed(bk, cust, s.address.value, input, s.scrapType.value,
                                         q, q * AsFloat(s.price.value).value, chosen))
    else Outcome(s, InvalidTimeSlot)
  }

  /** `address_change`: "yes" goes back for a new address, "no" finishes. */
  function OnAddressChange(s: SessionData, input: string): Outcome {
    if IsYes(input) then Outcome(s.(state := Some(AskAddress)), AskForNewAddress)
    else if IsNo(input) then Outcome(s.(state := Some(ThankYou)), PickupConfirmed)
    else Outcome(s, AnswerYesOrNo)
  }

  /** The quote a session holds once its quantity step succeeded. */
  predicate Quoted(d: SessionData) {
    d.scrapType.Some? && d.price.Some? && AsFloat(d.price.value).Some? && d.quantity.Some?
  }

  /** The fields the booking confirmation reads are all present. */
  predicate Confirmable(d: SessionData) {
    Quoted(d) && d.address.Some?
  }

  /** What a session that reached each state has stored on the way. */
  predicate Consistent(d: SessionData) {
    match d.state
    case None => true
    case Some(st) =>
      match st
      case AskQuantity => d.scrapType.Some? && d.price.Some?
      case ConfirmBooking => Quoted(d)
      case AskAddress => Quoted(d)
      case AskTimeSlot => Confirmable(d)
      case AddressChange =>
        Confirmable(d) && d.timeSlot.Some? &&
        d.bookingId.Some? && d.customerId.Some? && d.agent.Some?
      case ThankYou =>
        Confirmable(d) && d.timeSlot.Some? &&
        d.bookingId.Some? && d.customerId.Some? && d.agent.Some?
      case _ => true
  }

  /** The session dictionary of one user. */
  class Session {
    var state: Option<State>
    var scrapType: Option<string>
    var price: Option<Price>
    var quantity: Option<real>
    var address: Option<string>
    var timeSlot: Option<string>
    var bookingId: Option<string>
    var customerId: Option<string>
    var agent: Option<Agent>

    function Snapshot(): SessionData
      reads this
    {
      SessionData(state, scrapType, price, quantity, address, timeSlot, bookingId, customerId, agent)
    }

    /** A session with no keys yet. */
    constructor ()
      ensures Snapshot() == EmptySession
    {
      state, scrapType, price, quantity := None, None, None, None;
      address, timeSlot, bookingId, customerId, agent := None, None, None, None, None;
    }

    /** `get_price`: handles one turn, updating the session in place. */
    method Step(raw: string, catalog: Catalog, env: Environment) returns (reply: Reply)
      requires EnvironmentContract(env, Normalize(raw), catalog)
      modifies this
      ensures Snapshot() == Turn(old(Snapshot()), Normalize(raw), catalog, env).session
      ensures reply == Turn(old(Snapshot()), Normalize(raw), catalog, env).reply
    {
      var input := Normalize(raw);
      if state.None? {
        state := Some(Start);
      }
      match state.value {
        case Start =>
          reply := HandleYesNo(input, AskScrapType, AskForScrapType, ComeBackLater);
        case AskScrapType =>
          reply := HandleScrapType(catalog, env.matched);
        case AskQuantity =>
          reply := HandleQuantity(env.parsedQuantity);
        case ConfirmBooking =>
          reply := HandleYesNo(input, AskAddress, AskForAddress, AssistLater);
        case AskAddress =>
          reply := HandleAddress(input);
        case AskTimeSlot =>
          MatchesTimeSlotExactly(input);
          reply := HandleTimeSlot(input, MatchesTimeSlot(input), env);
        case AddressChange =>
          reply := HandleAddressChange(input);
        case ThankYou =>
          reply := AlreadyConfirmed;
        case Unrecognised(_) =>
          reply := CannotProceed;
      }
    }

    method HandleYesNo(input: string, next: State, yes: Reply, no: Reply) returns (reply: Reply)
      modifies this
      ensures Snapshot() == OnYesNo(old(Snapshot()), input, next, yes, no).session
      ensures reply == OnYesNo(old(Snapshot()), input, next, yes, no).reply
    {
      if input in ["yes", "y"] {
        state := Some(next);
        reply := yes;
      } else if input in ["no", "n"] {
        reply := no;
      } else {
        reply := AnswerYesOrNo;
      }
    }

    method HandleScrapType(catalog: Catalog, matched: Option<Match>) returns (reply: Reply)
      requires matched.Some? ==> matched.value.key in catalog
      modifies this
      ensures Snapshot() == OnScrapType(old(Snapshot()), catalog, matched).session
      ensures reply == OnScrapType(old(Snapshot()), catalog, matched).reply
    {
      match matched {
        case None =>
          reply := ServerError;
        case Some(m) =>
          if m.score > 70 {
            var item := catalog[m.key];
            scrapType := Some(item.name);
            price := Some(item.price);
            state := Some(AskQuantity);
            reply := PriceQuote(item.name, item.price, item.unit);
          } else {
            reply := MaterialNotFound;
          }
      }
    }

    method HandleQuantity(parsed: Option<real>) returns (reply: Reply)
      modifies this
      ensures Snapshot() == OnQuantity(old(Snapshot()), parsed).session
      ensures reply == OnQuantity(old(Snapshot()), parsed).reply
    {
      match parsed {
        case None =>
          reply := InvalidQuantity;
        case Some(q) =>
          quantity := Some(q);
          if price.None? {
            reply := ServerError;
          } else {
            match AsFloat(price.value) {
              case None =>
                reply := InvalidQuantity;
              case Some(p) =>
                state := Some(ConfirmBooking);
                reply := TotalEstimate(q * p);
            }
          }
      }
    }

    method HandleAddress(input: string) returns (reply: Reply)
      modifies this
      ensures Snapshot() == OnAddress(old(Snapshot()), input).session
      ensures reply == OnAddress(old(Snapshot()), input).reply
    {
      address := Some(input);
      state := Some(AskTimeSlot);
      reply := AskForTimeSlot;
    }

    method HandleTimeSlot(input: string, accepted: bool, env: Environment) returns (reply: Reply)
      requires 1000 <= env.bookingNumber <= 9999 && 1000 <= env.customerNumber <= 9999
      requires 0 <= env.agentIndex < |Roster|
      modifies this
      ensures Snapshot() == OnTimeSlot(old(Snapshot()), input, accepted, env).session
      ensures reply == OnTimeSlot(old(Snapshot()), input, accepted, env).reply
    {
      if accepted {
        timeSlot := Some(input);
        state := Some(AddressChange);
        var bk := BookingId(env.bookingNumber);
        var cust := CustomerId(env.customerNumber);
        var chosen := Roster[env.agentIndex];
        bookingId := Some(bk);
        customerId := Some(cust);
        agent := Some(chosen);
        if !Confirmable(Snapshot()) {
          reply := ServerError;
        } else {
          var q := quantity.value;
          reply := BookingConfirmed(bk, cust, address.value, input, scrapType.value,
                                    q, q * AsFloat(price.value).value, chosen);
        }
      } else {
        reply := InvalidTimeSlot;
      }
    }

    method HandleAddressChange(input: string) returns (reply: Reply)
      modifies this
      ensures Snapshot() == OnAddressChange(old(Snapshot()), input).session
      ensures reply == OnAddressChange(old(Snapshot()), input).reply
    {
      if input in ["yes", "y"] {
        state := Some(AskAddress);
        reply := AskForNewAddress;
      } else if input in ["no", "n"] {
        state := Some(ThankYou);
        reply := PickupConfirmed;
      } else {
        reply := AnswerYesOrNo;
      }
    }
  }
}
