# Scrap price bot — dialogue model

This project models the `/get_price` endpoint of the scrap price bot. The
endpoint is a chat dialogue that quotes a price for a kind of scrap and books
a pickup. Each POST carries one message. The handler:

- normalises the message with `.strip().lower()`;
- reads the conversation state from the signed session cookie;
- runs the branch for that state, which may store answers in the session
  and move to the next state;
- returns one reply.

The states are `start`, `ask_scrap_type`, `ask_quantity`, `confirm_booking`,
`ask_address`, `ask_time_slot`, `address_change` and `thank_you`.

The modules:

- `Text`: `strip()` over Python's whitespace set, ASCII `lower()`, and the
  `["yes", "y"]` / `["no", "n"]` membership tests.
- `TimeSlot`: the two time-slot regular expressions.
  - A declarative shape: `Slot`, `WellFormed`, `Render`, `IsTimeSlot`.
  - A left-to-right recogniser: `MatchesTimeSlot`.
  - Round-trip lemmas proving the two accept the same strings.
- `ScrapCatalog`:
  - the price list keyed by lower-cased name (`BuildCatalog`);
  - `float()` on a catalog price (`AsFloat`);
  - the contract of the fuzzy matcher `process.extractOne`.
- `Booking`: the agent roster and the `BK####` / `CUST####` identifiers.
- `Dialogue`:
  - `SessionData`: the session dictionary as a value. A missing key is `None`.
  - `State`: the stored label as the `if`/`elif` chain reads it. A label
    that is none of the eight is kept as `Unrecognised`, whose text type
    excludes the eight.
  - `Turn`: one call of the handler as a function. It dispatches to one
    function per state (`OnYesNo`, `OnScrapType`, …).
  - `Session`: a class whose fields are the session keys. `Session.Step`
    performs the turn field by field and is proved to end in the state
    `Turn` describes.
- `DialogueProperties`:
  - what each state does;
  - what no turn does (clear a key, write an unknown label, leave
    `thank_you`);
  - invariants over whole conversations (`Run`);
  - an end-to-end booking.

Random draws and library calls are parameters of a turn, collected in an
`Environment`:

- the result of `process.extractOne`;
- the result of `float(user_input)`;
- the two `randint(1000, 9999)` draws;
- the index `random.choice` picks from the roster.

`EnvironmentContract` states what those calls guarantee.

An exception the handler does not catch becomes the reply `ServerError`. The
session keeps the writes made before the exception. Three cases raise one:

- a `KeyError` on a missing session key;
- the `TypeError` raised when `extractOne` returns `None` for an empty
  catalog;
- the `ValueError` from `float(session['price'])` in the booking
  confirmation (bot.py:388) when the stored price is a "low - high" range.
  The booking has already been written to the session by then.

Behaviour of the code a reader might not expect:

- At `confirm_booking`, "yes" leads to `ask_address`. It does not skip to
  `ask_time_slot`.
- The time-slot check tests only the shape, so "25:00 - 26:00" is accepted.
- There are no states for a name, phone number, e-mail or pincode.
- The quantity is not checked for sign or range.
- The state is read from the stored label on every turn. A stored label
  that is none of the eight gets the fallback reply.
- A message is lower-cased before the time-slot check, so the `AM|PM`
  alternatives of the 12-hour pattern never match; "10 AM - 12 PM" is
  accepted through `am|pm`.
- A catalog entry whose price is a "low - high" range cannot be booked.
  `float(price)` raises the same `ValueError` as a bad quantity, after the
  quantity was stored, so `ask_quantity` repeats for every answer.

## Model

| member | source | states |
|---|---|---|
| Text.Strip | bot.py:309 | `strip()` leaves no whitespace at either end and never lengthens the text |
| Text.LowerChar | bot.py:309 | `lower()` on one character maps a capital to the small letter at the same place in the alphabet, keeps every other character, and so leaves no upper-case letter and keeps whitespace as whitespace |
| Text.LowerShape | bot.py:309 | `lower()` on a string maps each capital to its small letter at the same index, keeps every other character, leaves no upper-case letter and keeps whitespace where it was |
| Text.NoUpperSuffix | bot.py:309 | a text without capitals has none in any suffix |
| Text.NormalizeShape | bot.py:309 | a normalised message has no whitespace at either end and no upper-case letter |
| Text.StripExactly | bot.py:309 | stripping whitespace of any length from around a trimmed core gives back exactly that core |
| Text.LowerIdempotent | bot.py:309 | lower-casing twice is lower-casing once |
| Text.NormalizeIdempotent | bot.py:309 | normalising twice is normalising once |
| Text.NormalizeSurrounded | bot.py:309 | surrounding whitespace never reaches the classifier: a message reads as the lower-cased core |
| Text.UpperYesLowers | bot.py:309 | "YES" lower-cases to "yes" |
| Text.SpacedUpperYesIsYes | bot.py:309-318 | " YES " is classified as a yes |
| Text.TrimStartOfSpaces | bot.py:309 | removing leading whitespace from whitespace followed by a non-space start gives exactly the rest |
| Text.TrimEndOfSpaces | bot.py:309 | removing trailing whitespace from a core that ends in a non-space gives exactly the core |
| TimeSlot.ParseTwelveHour | bot.py:362-365 | a recognised 12-hour slot is well formed and renders back to exactly the input |
| TimeSlot.ParseTwentyFourHour | bot.py:363-365 | a recognised 24-hour slot is well formed and renders back to exactly the input |
| TimeSlot.ParseTwelveHourComplete | bot.py:362-365 | every 12-hour shape is recognised and read back as itself |
| TimeSlot.ParseTwentyFourHourComplete | bot.py:363-365 | every 24-hour shape is recognised and read back as itself |
| TimeSlot.MatchesTimeSlotExactly | bot.py:362-365 | the handler's check accepts a string if and only if it has one of the two shapes |
| TimeSlot.OutOfRangeHoursAccepted | bot.py:363-365 | "25:00 - 26:00" is accepted: only the shape is checked |
| TimeSlot.TwelveHourExampleIsTimeSlot | bot.py:359 | the 12-hour example the prompt offers, lower-cased, has the declarative shape |
| TimeSlot.TwelveHourExampleAccepted | bot.py:359 | the 12-hour example the prompt offers, lower-cased, passes the check |
| TimeSlot.TwentyFourHourExampleAccepted | bot.py:359 | the 24-hour example the prompt offers passes the check |
| TimeSlot.MissingMeridiemRejected | bot.py:362-365 | "10 - 12 pm" is rejected: each 12-hour time needs its AM/PM |
| TimeSlot.SingleDigitTwentyFourHourRejected | bot.py:363-365 | "9:00 - 17:00" is rejected: 24-hour fields need two digits |
| TimeSlot.TakeTwelveHourClockOf | bot.py:362 | the recogniser reads back any one-or-two-digit hour with an optional space and AM/PM that starts a string |
| TimeSlot.TakeTwentyFourHourClockOf | bot.py:363 | the recogniser reads back any `\d{2}:\d{2}` time that starts a string |
| TimeSlot.TakeDashOf | bot.py:362-363 | the recogniser reads back any ` ?- ?` separator that starts a string |
| TimeSlot.LowerMeridiemOf | bot.py:362 | a meridiem followed by text without capitals is `am` or `pm` |
| TimeSlot.LowerCaseSlotMeridiems | bot.py:362 | a 12-hour slot written without capitals has `am`/`pm` at both ends |
| TimeSlot.NormalizedSlotMeridiems | bot.py:309-365 | every 12-hour reading of a normalised message uses `am`/`pm`: the `AM|PM` alternatives never match |
| ScrapCatalog.AsFloat | bot.py:341 | `float(price)` succeeds exactly for a single-number price |
| ScrapCatalog.BuildCatalog | bot.py:293 | every entry's lower-cased name is a key, every key is the lower-cased name of the entry it holds, and every value comes from the list |
| ScrapCatalog.LastEntryWins | bot.py:293 | an entry is found under its lower-cased name unless a later entry has the same lower-cased name |
| ScrapCatalog.CaseVariantsCollapse | bot.py:293 | two names that differ only in letter case leave one key, holding the later entry |
| ScrapCatalog.MatchContractSatisfiable | bot.py:327 | for any non-empty catalog some matcher result meets the contract assumed of `extractOne` |
| Booking.DecimalString | bot.py:369-370 | `str(n)` is a non-empty digit string with no leading zero whose value is `n` |
| Booking.FourDigitNumber | bot.py:369-370 | a draw of `randint(1000, 9999)` is written with four digits |
| Booking.BookingId | bot.py:369 | the booking id is "BK" and four digits that spell the draw |
| Booking.CustomerId | bot.py:370 | the customer id is "CUST" and four digits that spell the draw |
| Booking.IdsDistinguishDraws | bot.py:369-370 | two ids are equal if and only if their draws are |
| Dialogue.StateOf | bot.py:315-412 | the `if`/`elif` chain reads a stored label as the state whose label it is, and as unrecognised exactly when it is none of the eight |
| Dialogue.ReadsBackOwnLabel | bot.py:315-412 | every state value, an unrecognised one included, is what the chain reads from its own label, so dispatching on the value takes the branch the stored label selects |
| Dialogue.Session.constructor | bot.py:303 | a cleared session holds no key |
| Dialogue.Session.Step | bot.py:306-412 | one call updates the session in place to exactly the session `Turn` gives and returns `Turn`'s reply |
| Dialogue.Session.HandleYesNo | bot.py:317-354 | the `start` / `confirm_booking` branch leaves the session and reply that `OnYesNo` gives |
| Dialogue.Session.HandleScrapType | bot.py:326-335 | the `ask_scrap_type` branch leaves the session and reply that `OnScrapType` gives |
| Dialogue.Session.HandleQuantity | bot.py:337-345 | the `ask_quantity` branch leaves the session and reply that `OnQuantity` gives |
| Dialogue.Session.HandleAddress | bot.py:356-359 | the `ask_address` branch leaves the session and reply that `OnAddress` gives |
| Dialogue.Session.HandleTimeSlot | bot.py:361-397 | the `ask_time_slot` branch leaves the session and reply that `OnTimeSlot` gives |
| Dialogue.Session.HandleAddressChange | bot.py:399-407 | the `address_change` branch leaves the session and reply that `OnAddressChange` gives |
| DialogueProperties.RejectionChangesNothing | bot.py:317-407 | in `start`, `ask_scrap_type`, `confirm_booking`, `ask_time_slot` and `address_change`, a rejected answer changes nothing and the reply asks again. The one exception is an empty catalog |
| DialogueProperties.StateMovesIffAccepted | bot.py:317-407 | in those states the state changes if and only if the answer is accepted |
| DialogueProperties.StartTurn | bot.py:312-324 | a session without a state starts at `start`. Only "yes"/"y" moves on, to `ask_scrap_type`. No other key is written, and "no"/"n" gets the come-back-later reply |
| DialogueProperties.ScrapTypeTurn | bot.py:326-335 | the session moves to `ask_quantity` if and only if the score exceeds 70. It then holds the matched entry's name and price, and with a catalog built from the list the name lower-cases to the matched key |
| DialogueProperties.ExactKeyFound | bot.py:326-332 | typing a catalog key exactly, with a letter or digit in it, always finds the material |
| DialogueProperties.QuantityTurn | bot.py:337-345 | an unparsable quantity changes nothing. A parsed one is stored with no sign check. With a single price the session moves to `confirm_booking` quoting quantity × price; with a price range it stays at `ask_quantity` |
| DialogueProperties.ConfirmBookingTurn | bot.py:347-354 | "yes"/"y" moves to `ask_address`; "no"/"n" and anything else change nothing |
| DialogueProperties.AddressTurn | bot.py:356-359 | any text, the empty text included, is stored as the address, and the session moves to `ask_time_slot` |
| DialogueProperties.BookingTurn | bot.py:361-375 | an accepted slot stores the slot, a well-formed booking id, a well-formed customer id and an agent of the roster, moves to `address_change`, and keeps every other key |
| DialogueProperties.TimeSlotDispatch | bot.py:361-365 | at `ask_time_slot` a turn is the time-slot branch on the session as it is |
| DialogueProperties.ConfirmedSlotReply | bot.py:377-395 | with the address, material, quantity and a single price stored, an accepted slot is confirmed with those answers and an estimate of quantity × `float(price)` |
| DialogueProperties.BookingReply | bot.py:377-395 | for a session that reached `ask_time_slot` through the dialogue, the reply confirms the stored booking with estimate quantity × `float(price)` |
| DialogueProperties.AddressChangeTurn | bot.py:399-407 | "yes"/"y" goes back to `ask_address` and "no"/"n" goes to `thank_you`, neither clearing a key; anything else changes nothing |
| DialogueProperties.ThankYouTurn | bot.py:409-410 | at `thank_you` every message gets the same reply and changes nothing |
| DialogueProperties.UnrecognisedTurn | bot.py:412 | a stored label that is none of the eight gets the fallback reply and changes nothing |
| DialogueProperties.OnlyKnownLabelsWritten | bot.py:312-412 | after a turn the session has a state, and a turn never writes an unknown label |
| DialogueProperties.FieldsOnlyGrowInTheirState | bot.py:312-412 | no turn removes a key, and each key is written only in the state that asks for it |
| DialogueProperties.ConsistencyPreserved | bot.py:312-412 | a turn keeps what each state needs from earlier answers. From such a session a turn fails only when the catalog is empty |
| DialogueProperties.ThankYouAbsorbing | bot.py:409-410 | once `thank_you` is reached, no sequence of later messages changes the session |
| DialogueProperties.RunWritesOnlyKnownLabels | bot.py:312-412 | a conversation that starts without an unknown label never gets one, and has a state after its first message |
| DialogueProperties.RunKeepsConsistency | bot.py:312-412 | every conversation from a consistent session stays consistent |
| DialogueProperties.ConfirmedConversationIsComplete | bot.py:312-412 | a conversation from an empty session that reaches `thank_you` holds a material with a single price, a quantity, an address, a slot, both ids and an agent |
| DialogueProperties.HappyPathQuote | bot.py:317-343 | from an empty session, "yes", "steel" and "10" quote the entry and reach `confirm_booking` with it stored |
| DialogueProperties.HappyPathAddress | bot.py:347-359 | from `confirm_booking`, "yes" and an address reach `ask_time_slot` with the address stored |
| DialogueProperties.HappyPathSlot | bot.py:361-405 | from `ask_time_slot` with a quote and an address, a slot and "no" confirm the booking and end in `thank_you` |
| DialogueProperties.HappyPath | bot.py:306-405 | the whole intended conversation from an empty session ends in `thank_you` with the booking confirmed |

## Left out

- Flask request and response handling, the `/` route's page and the JSON
  reply encoding are not modelled. A reply is a constructor of `Reply`, not
  its text. The f-string formatting of prices (`:.2f`) and of the quantity
  is not modelled.
- Loading `scrap_prices.json` is not modelled. The catalog is a parameter,
  and the item's image URL is never read by the dialogue.
- `process.extractOne` is not modelled. Its result is a parameter, and
  `MatchContract` states only the guarantees the dialogue relies on: a key
  of the catalog, a score in 0..100, 100 for a query that is exactly a key
  containing an ASCII letter or digit, and nothing for an empty catalog. Its scoring and tie-breaking are not part of this model.
- `float(user_input)` is not modelled. Its result is a parameter, so the
  spellings Python accepts ("1e3", "inf", "nan", underscores) are not
  modelled either.
- `random.randint` and `random.choice` are not modelled. The draws are
  parameters constrained to their ranges.
- Text.Lower: lower-cases ASCII letters only, while Python's `str.lower()`
  also maps non-ASCII letters.
- TimeSlot.MatchesTimeSlot: `\d` is read as an ASCII digit, while Python's
  `re` also matches other Unicode decimal digits.
- Prices are real numbers, not IEEE doubles, so rounding in
  quantity × price is not modelled.
- Concurrency between requests is not modelled.
- Whether Flask writes back a session changed by a request that then failed
  is not modelled. `ServerError` outcomes keep the writes made before the
  exception.
- The two older revisions of the bot kept in comments at the top of bot.py
  (bot.py:1-136 and bot.py:138-274) are not part of this model.
- Storing confirmed bookings anywhere is not modelled. The code keeps them
  only in the session.
