/** What the dialogue promises, stated about `Dialogue.Turn` one turn at a
    time and about `Run`, the session after a sequence of turns. */
module DialogueProperties {
  import opened Wrappers
  import opened Text
  import opened TimeSlot
  import opened ScrapCatalog
  import opened Booking
  import opened Dialogue

  /** The states in which an answer is either accepted or reprompted for. */
  predicate Validating(st: State) {
    st == Start || st == AskScrapType || st == ConfirmBooking || st == AskTimeSlot || st == AddressChange
  }

  /** Which answers each validating state accepts. */
  ghost predicate Accepts(st: State, input: string, env: Environment) {
    match st
    case Start => IsYes(input)
    case AskScrapType => env.matched.Some? && env.matched.value.score > 70
    case ConfirmBooking => IsYes(input)
    case AskTimeSlot => IsTimeSlot(input)
    case AddressChange => IsYes(input) || IsNo(input)
    case _ => false
  }

  /** The replies that ask again without changing anything. */
  predicate Reprompt(r: Reply) {
    r == AnswerYesOrNo || r == ComeBackLater || r == AssistLater ||
    r == MaterialNotFound || r == InvalidTimeSlot
  }

  /** In a validating state, an answer that is not accepted leaves the whole
      session as it was and asks again; the one exception is an empty catalog,
      where the matcher has no result and the handler fails. */
  lemma RejectionChangesNothing(d: SessionData, input: string, catalog: Catalog, env: Environment)
    requires EnvironmentContract(env, input, catalog)
    requires d.state.Some? && Validating(CurrentState(d))
    requires !Accepts(CurrentState(d), input, env)
    ensures Turn(d, input, catalog, env).session == d
    ensures Reprompt(Turn(d, input, catalog, env).reply) || catalog == map[]
  {
  }

  /** In a validating state, the state moves exactly when the answer is accepted. */
  lemma StateMovesIffAccepted(d: SessionData, input: string, catalog: Catalog, env: Environment)
    requires EnvironmentContract(env, input, catalog)
    requires d.state.Some? && Validating(CurrentState(d))
    ensures Turn(d, input, catalog, env).session.state != d.state <==> Accepts(CurrentState(d), input, env)
  {
  }

  /** A session without a state is treated as one at `start`, and after any
      turn it has a state. At `start` only "yes"/"y" move on, to
      `ask_scrap_type`; "no"/"n" and anything else stay at `start`, and no
      other key is written. */
  lemma StartTurn(d: SessionData, input: string, catalog: Catalog, env: Environment)
    requires EnvironmentContract(env, input, catalog)
    requires d.state == None || d.state == Some(Start)
    ensures Turn(d, input, catalog, env).session.state ==
            Some(if IsYes(input) then AskScrapType else Start)
    ensures Turn(d, input, catalog, env).session == d.(state := Turn(d, input, catalog, env).session.state)
    ensures IsNo(input) ==> Turn(d, input, catalog, env).reply == ComeBackLater
  {
  }

  /** At `ask_scrap_type` the session advances exactly when the match scores
      above 70; it then holds the matched entry's display name and price, and
      in a catalog keyed by lower-cased names that name lower-cases to the key. */
  lemma ScrapTypeTurn(d: SessionData, input: string, catalog: Catalog, env: Environment)
    requires EnvironmentContract(env, input, catalog)
    requires CurrentState(d) == AskScrapType && catalog != map[]
    ensures var o := Turn(d, input, catalog, env);
      (o.session.state == Some(AskQuantity) <==> env.matched.value.score > 70) &&
      (env.matched.value.score > 70 ==>
        o.session.scrapType == Some(catalog[env.matched.value.key].name) &&
        o.session.price == Some(catalog[env.matched.value.key].price) &&
        (KeyedByLowerName(catalog) ==> Lower(o.session.scrapType.value) == env.matched.value.key))
  {
  }

  /** Typing a catalog key exactly (with at least one letter or digit) always
      finds the material. */
  lemma ExactKeyFound(d: SessionData, input: string, catalog: Catalog, env: Environment)
    requires EnvironmentContract(env, input, catalog)
    requires CurrentState(d) == AskScrapType
    requires input in catalog
    requires exists i :: 0 <= i < |input| && IsAlphanumeric(input[i])
    ensures Turn(d, input, catalog, env).session.state == Some(AskQuantity)
  {
  }

  /** At `ask_quantity`: an unparsable answer changes nothing; a parsed one is
      stored, and with a single price the session moves to `confirm_booking`
      quoting quantity times price; with a price range `float()` fails after the
      quantity was stored, so the session stays at `ask_quantity` for every
      answer. No sign check is made on the quantity. */
  lemma QuantityTurn(d: SessionData, input: string, catalog: Catalog, env: Environment)
    requires EnvironmentContract(env, input, catalog)
    requires CurrentState(d) == AskQuantity && d.price.Some?
    ensures var o := Turn(d, input, catalog, env);
      (env.parsedQuantity.None? ==>
        o.session == d && o.reply == InvalidQuantity) &&
      (env.parsedQuantity.Some? ==> o.session.quantity == env.parsedQuantity) &&
      (env.parsedQuantity.Some? && d.price.value.Fixed? ==>
        o.session.state == Some(ConfirmBooking) &&
        o.reply == TotalEstimate(env.parsedQuantity.value * d.price.value.amount)) &&
      (d.price.value.Range? ==> o.session.state == d.state && o.reply == InvalidQuantity)
  {
  }

  /** At `confirm_booking`, "yes"/"y" moves on to `ask_address` (not to
      `ask_time_slot`); "no"/"n" and anything else change nothing. */
  lemma ConfirmBookingTurn(d: SessionData, input: string, catalog: Catalog, env: Environment)
    requires EnvironmentContract(env, input, catalog)
    requires CurrentState(d) == ConfirmBooking
    ensures IsYes(input) ==>
            Turn(d, input, catalog, env) == Outcome(d.(state := Some(AskAddress)), AskForAddress)
    ensures IsNo(input) ==> Turn(d, input, catalog, env) == Outcome(d, AssistLater)
    ensures !IsYes(input) && !IsNo(input) ==> Turn(d, input, catalog, env) == Outcome(d, AnswerYesOrNo)
  {
  }

  /** `ask_address` takes any text, the empty text included, as the address
      and always moves to `ask_time_slot`. */
  lemma AddressTurn(d: SessionData, input: string, catalog: Catalog, env: Environment)
    requires EnvironmentContract(env, input, catalog)
    requires CurrentState(d) == AskAddress
    ensures Turn(d, input, catalog, env).session ==
            d.(address := Some(input), state := Some(AskTimeSlot))
  {
  }

  /** At `ask_time_slot` the turn is the time-slot branch on the session as it is. */
  lemma TimeSlotDispatch(d: SessionData, input: string, catalog: Catalog, env: Environment)
    requires EnvironmentContract(env, input, catalog)
    requires CurrentState(d) == AskTimeSlot
    ensures Turn(d, input, catalog, env) == OnTimeSlot(d, input, IsTimeSlot(input), env)
  {
    assert d.(state := Some(CurrentState(d))) == d;
  }

  /** An accepted slot at `ask_time_slot` stores the slot, a booking id, a
      customer id and an agent of the roster, moves to `address_change`, and
      keeps the material, price, quantity and address. */
  lemma BookingTurn(d: SessionData, input: string, catalog: Catalog, env: Environment)
    requires EnvironmentContract(env, input, catalog)
    requires CurrentState(d) == AskTimeSlot && IsTimeSlot(input)
    ensures var o := Turn(d, input, catalog, env);
      o.session == d.(state := Some(AddressChange), timeSlot := Some(input),
                      bookingId := Some(BookingId(env.bookingNumber)),
                      customerId := Some(CustomerId(env.customerNumber)),
                      agent := Some(Roster[env.agentIndex])) &&
      IsBookingId(o.session.bookingId.value) && IsCustomerId(o.session.customerId.value) &&
      o.session.agent.value in Roster
  {
    TimeSlotDispatch(d, input, catalog, env);
  }

  /** With every field it reads present, an accepted slot is confirmed with
      the stored answers and an estimate of quantity times `float(price)`. */
  lemma ConfirmedSlotReply(s: SessionData, input: string, env: Environment)
    requires 1000 <= env.bookingNumber <= 9999 && 1000 <= env.customerNumber <= 9999
    requires 0 <= env.agentIndex < |Roster|
    requires Confirmable(s)
    ensures OnTimeSlot(s, input, true, env).reply ==
            BookingConfirmed(BookingId(env.bookingNumber), CustomerId(env.customerNumber),
                             s.address.value, input, s.scrapType.value, s.quantity.value,
                             s.quantity.value * AsFloat(s.price.value).value, Roster[env.agentIndex])
  {
  }

  /** From a session that got to `ask_time_slot` through the dialogue, the
      reply to an accepted slot is the confirmation of the stored booking,
      whose estimate is the quantity times `float(price)`. */
  lemma BookingReply(d: SessionData, input: string, catalog: Catalog, env: Environment)
    requires EnvironmentContract(env, input, catalog)
    requires d.state == Some(AskTimeSlot) && Consistent(d) && IsTimeSlot(input)
    ensures Turn(d, input, catalog, env).reply ==
            BookingConfirmed(BookingId(env.bookingNumber), CustomerId(env.customerNumber),
                             d.address.value, input, d.scrapType.value, d.quantity.value,
                             d.quantity.value * AsFloat(d.price.value).value, Roster[env.agentIndex])
  {
    TimeSlotDispatch(d, input, catalog, env);
    ConfirmedSlotReply(d, input, env);
  }

  /** At `address_change`, "yes" goes back to `ask_address` and "no" to
      `thank_you`, neither clearing a stored key; any other answer changes
      nothing and asks again. */
  lemma AddressChangeTurn(d: SessionData, input: string, catalog: Catalog, env: Environment)
    requires EnvironmentContract(env, input, catalog)
    requires CurrentState(d) == AddressChange
    ensures IsYes(input) ==>
            Turn(d, input, catalog, env) == Outcome(d.(state := Some(AskAddress)), AskForNewAddress)
    ensures IsNo(input) ==>
            Turn(d, input, catalog, env) == Outcome(d.(state := Some(ThankYou)), PickupConfirmed)
    ensures !IsYes(input) && !IsNo(input) ==>
            Turn(d, input, catalog, env) == Outcome(d, AnswerYesOrNo)
  {
  }

  /** `thank_you` answers every turn the same way and changes nothing. */
  lemma ThankYouTurn(d: SessionData, input: string, catalog: Catalog, env: Environment)
    requires EnvironmentContract(env, input, catalog)
    requires CurrentState(d) == ThankYou
    ensures Turn(d, input, catalog, env) == Outcome(d, AlreadyConfirmed)
  {
  }

  /** A stored label that is none of the eight gets the fallback reply and no change. */
  lemma UnrecognisedTurn(d: SessionData, input: string, catalog: Catalog, env: Environment)
    requires EnvironmentContract(env, input, catalog)
    requires d.state.Some? && !IsKnownLabel(Label(d.state.value))
    ensures Turn(d, input, catalog, env) == Outcome(d, CannotProceed)
  {
    assert d.state.value.Unrecognised?;
  }

  /** A turn only ever writes one of the eight labels into the state. */
  lemma OnlyKnownLabelsWritten(d: SessionData, input: string, catalog: Catalog, env: Environment)
    requires EnvironmentContract(env, input, catalog)
    ensures Turn(d, input, catalog, env).session.state.Some?
    ensures Turn(d, input, catalog, env).session.state.value.Unrecognised? ==>
            Turn(d, input, catalog, env).session.state == d.state
  {
  }

  /** No key present before a turn is missing after it. */
  predicate KeepsKeys(d: SessionData, e: SessionData) {
    (d.scrapType.Some? ==> e.scrapType.Some?) &&
    (d.price.Some? ==> e.price.Some?) &&
    (d.quantity.Some? ==> e.quantity.Some?) &&
    (d.address.Some? ==> e.address.Some?) &&
    (d.timeSlot.Some? ==> e.timeSlot.Some?) &&
    (d.bookingId.Some? ==> e.bookingId.Some?) &&
    (d.customerId.Some? ==> e.customerId.Some?) &&
    (d.agent.Some? ==> e.agent.Some?)
  }

  /** Each key changes only in the state that asks for it. */
  predicate WritesOwnKeys(st: State, d: SessionData, e: SessionData) {
    ((e.scrapType != d.scrapType || e.price != d.price) ==> st == AskScrapType) &&
    (e.quantity != d.quantity ==> st == AskQuantity) &&
    (e.address != d.address ==> st == AskAddress) &&
    ((e.timeSlot != d.timeSlot || e.bookingId != d.bookingId ||
      e.customerId != d.customerId || e.agent != d.agent) ==> st == AskTimeSlot)
  }

  /** A present key is never removed, and each key is written only in the
      state that asks for it. */
  lemma FieldsOnlyGrowInTheirState(d: SessionData, input: string, catalog: Catalog, env: Environment)
    requires EnvironmentContract(env, input, catalog)
    ensures KeepsKeys(d, Turn(d, input, catalog, env).session)
    ensures WritesOwnKeys(CurrentState(d), d, Turn(d, input, catalog, env).session)
  {
    var s := d.(state := Some(CurrentState(d)));
    var o := Turn(d, input, catalog, env);
    match CurrentState(d)
    case AskTimeSlot =>
      assert o == OnTimeSlot(s, input, IsTimeSlot(input), env);
    case AskScrapType =>
      assert o == OnScrapType(s, catalog, env.matched);
    case AskQuantity =>
      assert o == OnQuantity(s, env.parsedQuantity);
    case _ =>
  }

  /** Sessions that went through the dialogue keep what their state needs, and
      their turns fail only when an empty catalog leaves the matcher without a result. */
  lemma ConsistencyPreserved(d: SessionData, input: string, catalog: Catalog, env: Environment)
    requires EnvironmentContract(env, input, catalog)
    requires Consistent(d)
    ensures Consistent(Turn(d, input, catalog, env).session)
    ensures Turn(d, input, catalog, env).reply == ServerError ==>
            CurrentState(d) == AskScrapType && catalog == map[]
  {
  }

  /** One message of a conversation and what the library calls returned while
      handling it. */
  datatype Message = Message(raw: string, env: Environment)

  /** Every message of the conversation meets the library contracts. */
  predicate ContractsHold(msgs: seq<Message>, catalog: Catalog) {
    forall i :: 0 <= i < |msgs| ==> EnvironmentContract(msgs[i].env, Normalize(msgs[i].raw), catalog)
  }

  /** The session after the messages are handled one after another. */
  ghost function Run(d: SessionData, msgs: seq<Message>, catalog: Catalog): SessionData
    requires ContractsHold(msgs, catalog)
    decreases |msgs|
  {
    if msgs == [] then d
    else Run(Turn(d, Normalize(msgs[0].raw), catalog, msgs[0].env).session, msgs[1..], catalog)
  }

  /** Once the pickup is confirmed, no later message changes the session. */
  lemma {:induction false} ThankYouAbsorbing(d: SessionData, msgs: seq<Message>, catalog: Catalog)
    requires ContractsHold(msgs, catalog)
    requires CurrentState(d) == ThankYou
    ensures Run(d, msgs, catalog) == d
    decreases |msgs|
  {
    if msgs != [] {
      ThankYouTurn(d, Normalize(msgs[0].raw), catalog, msgs[0].env);
      ThankYouAbsorbing(d, msgs[1..], catalog);
    }
  }

  /** A conversation that starts without an unrecognised label never gets one. */
  lemma {:induction false} RunWritesOnlyKnownLabels(d: SessionData, msgs: seq<Message>, catalog: Catalog)
    requires ContractsHold(msgs, catalog)
    requires d.state.None? || !d.state.value.Unrecognised?
    ensures Run(d, msgs, catalog).state.None? <==> (d.state.None? && msgs == [])
    ensures Run(d, msgs, catalog).state.Some? ==> !Run(d, msgs, catalog).state.value.Unrecognised?
    decreases |msgs|
  {
    if msgs != [] {
      var e := Turn(d, Normalize(msgs[0].raw), catalog, msgs[0].env).session;
      OnlyKnownLabelsWritten(d, Normalize(msgs[0].raw), catalog, msgs[0].env);
      RunWritesOnlyKnownLabels(e, msgs[1..], catalog);
    }
  }

  /** A conversation from a consistent session stays consistent after every
      message, and in particular one that starts from an empty session. */
  lemma {:induction false} RunKeepsConsistency(d: SessionData, msgs: seq<Message>, catalog: Catalog)
    requires ContractsHold(msgs, catalog)
    requires Consistent(d)
    ensures Consistent(Run(d, msgs, catalog))
    decreases |msgs|
  {
    if msgs != [] {
      var e := Turn(d, Normalize(msgs[0].raw), catalog, msgs[0].env).session;
      ConsistencyPreserved(d, Normalize(msgs[0].raw), catalog, msgs[0].env);
      RunKeepsConsistency(e, msgs[1..], catalog);
    }
  }

  /** A conversation from an empty session that reaches `thank_you` holds a
      complete booking: material, price, quantity, address, slot, both ids and
      an agent. */
  lemma ConfirmedConversationIsComplete(msgs: seq<Message>, catalog: Catalog)
    requires ContractsHold(msgs, catalog)
    requires Run(EmptySession, msgs, catalog).state == Some(ThankYou)
    ensures var e := Run(EmptySession, msgs, catalog);
      e.scrapType.Some? && e.price.Some? && e.price.value.Fixed? && e.quantity.Some? &&
      e.address.Some? && e.timeSlot.Some? && e.bookingId.Some? && e.customerId.Some? && e.agent.Some?
  {
    RunKeepsConsistency(EmptySession, msgs, catalog);
  }

  /** The library results of a conversation in which the material typed is
      the catalog key "steel" and the quantity is 10. */
  predicate SteelConversation(catalog: Catalog, env: Environment, item: Entry) {
    "steel" in catalog && catalog["steel"] == item && item.price.Fixed? &&
    env.matched == Some(Match("steel", 100)) && env.parsedQuantity == Some(10.0) &&
    1000 <= env.bookingNumber <= 9999 && 1000 <= env.customerNumber <= 9999 &&
    0 <= env.agentIndex < |Roster|
  }

  /** The first three answers of that conversation, "yes", "steel" and "10",
      quote the item and reach `confirm_booking` with a quoted session. */
  lemma HappyPathQuote(catalog: Catalog, env: Environment, item: Entry)
    requires SteelConversation(catalog, env, item)
    ensures var o1 := Turn(EmptySession, "yes", catalog, env);
      var o2 := Turn(o1.session, "steel", catalog, env);
      var o3 := Turn(o2.session, "10", catalog, env);
      o1.reply == AskForScrapType &&
      o2.reply == PriceQuote(item.name, item.price, item.unit) &&
      o3.reply == TotalEstimate(10.0 * item.price.amount) &&
      o3.session == EmptySession.(state := Some(ConfirmBooking), scrapType := Some(item.name),
                                  price := Some(item.price), quantity := Some(10.0))
  {
    var d1 := EmptySession.(state := Some(AskScrapType));
    assert IsYes("yes");
    assert Turn(EmptySession, "yes", catalog, env) == Outcome(d1, AskForScrapType);
    var d2 := d1.(scrapType := Some(item.name), price := Some(item.price), state := Some(AskQuantity));
    assert Turn(d1, "steel", catalog, env) == Outcome(d2, PriceQuote(item.name, item.price, item.unit));
  }

  /** From a quoted session at `confirm_booking`, "yes" and an address reach
      `ask_time_slot` with that address stored. */
  lemma HappyPathAddress(d: SessionData, catalog: Catalog, env: Environment, item: Entry)
    requires SteelConversation(catalog, env, item)
    requires d.state == Some(ConfirmBooking)
    ensures var o4 := Turn(d, "yes", catalog, env);
      var o5 := Turn(o4.session, "12 oak st", catalog, env);
      o4.reply == AskForAddress && o5.reply == AskForTimeSlot &&
      o5.session == d.(state := Some(AskTimeSlot), address := Some("12 oak st"))
  {
    assert IsYes("yes");
    assert Turn(d, "yes", catalog, env).session == d.(state := Some(AskAddress));
  }

  /** From a session at `ask_time_slot` holding a quote and an address, a slot
      and "no" book the pickup for quantity times price and end in `thank_you`. */
  lemma HappyPathSlot(d: SessionData, catalog: Catalog, env: Environment, item: Entry)
    requires SteelConversation(catalog, env, item)
    requires d.state == Some(AskTimeSlot) && Confirmable(d)
    ensures var o6 := Turn(d, "10 am - 12 pm", catalog, env);
      var o7 := Turn(o6.session, "no", catalog, env);
      o6.reply == BookingConfirmed(BookingId(env.bookingNumber), CustomerId(env.customerNumber),
                                   d.address.value, "10 am - 12 pm", d.scrapType.value, d.quantity.value,
                                   d.quantity.value * AsFloat(d.price.value).value, Roster[env.agentIndex]) &&
      o7.session.state == Some(ThankYou) && o7.reply == PickupConfirmed
  {
    TwelveHourExampleIsTimeSlot();
    BookingTurn(d, "10 am - 12 pm", catalog, env);
    BookingReply(d, "10 am - 12 pm", catalog, env);
    var e := Turn(d, "10 am - 12 pm", catalog, env).session;
    AddressChangeTurn(e, "no", catalog, env);
  }

  /** The conversation the bot is built for, from an empty session:
      "yes", "steel", "10", "yes", an address, a slot and "no" end in
      `thank_you` with the booking confirmed for ten times the price. */
  lemma HappyPath(catalog: Catalog, env: Environment, item: Entry)
    requires SteelConversation(catalog, env, item)
    ensures var o1 := Turn(EmptySession, "yes", catalog, env);
      var o2 := Turn(o1.session, "steel", catalog, env);
      var o3 := Turn(o2.session, "10", catalog, env);
      var o4 := Turn(o3.session, "yes", catalog, env);
      var o5 := Turn(o4.session, "12 oak st", catalog, env);
      var o6 := Turn(o5.session, "10 am - 12 pm", catalog, env);
      var o7 := Turn(o6.session, "no", catalog, env);
      o6.reply.BookingConfirmed? && o6.reply.address == "12 oak st" && o6.reply.material == item.name &&
      o7.session.state == Some(ThankYou) && o7.reply == PickupConfirmed
  {
    HappyPathQuote(catalog, env, item);
    var d3 := EmptySession.(state := Some(ConfirmBooking), scrapType := Some(item.name),
                            price := Some(item.price), quantity := Some(10.0));
    HappyPathAddress(d3, catalog, env, item);
    var d5 := d3.(state := Some(AskTimeSlot), address := Some("12 oak st"));
    assert Confirmable(d5);
    HappyPathSlot(d5, catalog, env, item);
  }
}
