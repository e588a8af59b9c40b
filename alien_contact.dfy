/** The alien contact report, its declared field ranges and the rules its
    validator checks after the fields. */
module AlienContact {
  import opened Wrappers

  datatype ContactType = Radio | Visual | Physical | Telepathic

  /** The timestamp is not part of this model; the signal strength, a float
      in the source, is a real number here since it is only compared. */
  datatype Contact = Contact(
    contactId: string, location: string, contactType: ContactType,
    signalStrength: real, durationMinutes: int, witnessCount: int,
    messageReceived: Option<string>, isVerified: bool)

  /** The declared ranges of the fields. */
  predicate FieldsValid(c: Contact)
  {
    5 <= |c.contactId| <= 15 && 3 <= |c.location| <= 100
    && 0.0 <= c.signalStrength <= 10.0 && 1 <= c.durationMinutes <= 1440
    && 1 <= c.witnessCount <= 100
    && (c.messageReceived.Some? ==> |c.messageReceived.value| <= 500)
  }

  datatype ContactError =
    | FieldError
    | InvalidId
    | Unverified
    | TooFewWitnesses
    | MissingMessage

  /** `hasattr(self, "message_received")`: a declared field is an attribute
      of every validated contact, whatever its value, `None` included. */
  predicate HasMessageAttribute(c: Contact)
  {
    true
  }

  /** `validator` as written: the first rule that fails is the error. */
  function Validate(c: Contact): (r: Result<Contact, ContactError>)
    ensures r.Ok? ==> r.value == c
    ensures r == Err(InvalidId) <==> !("AC" <= c.contactId)
    ensures r == Err(Unverified) <==> "AC" <= c.contactId && c.contactType == Physical && !c.isVerified
    ensures r == Err(TooFewWitnesses) <==>
      ("AC" <= c.contactId && (c.contactType == Physical ==> c.isVerified)
       && c.contactType == Telepathic && c.witnessCount < 3)
    ensures r.Ok? <==>
      ("AC" <= c.contactId && (c.contactType == Physical ==> c.isVerified)
       && (c.contactType == Telepathic ==> c.witnessCount >= 3))
  {
    if !("AC" <= c.contactId) then Err(InvalidId)
    else if !c.isVerified && c.contactType == Physical then Err(Unverified)
    else if c.contactType == Telepathic && c.witnessCount < 3 then Err(TooFewWitnesses)
    else if c.signalStrength > 7.0 && !HasMessageAttribute(c) then Err(MissingMessage)
    else Ok(c)
  }

  /** Building a contact: the field ranges first, then the validator. */
  function CreateContact(c: Contact): (r: Result<Contact, ContactError>)
    ensures r == Err(FieldError) <==> !FieldsValid(c)
    ensures r.Ok? ==> FieldsValid(c) && r == Validate(c)
    ensures FieldsValid(c) ==> r == Validate(c)
  {
    if !FieldsValid(c) then Err(FieldError) else Validate(c)
  }

  /** The strong-signal rule never fires: no contact is refused for a missing
      message. */
  lemma StrongSignalNeverFires(c: Contact)
    ensures Validate(c) != Err(MissingMessage)
  {
  }

  /** A strong signal with no message at all is accepted. */
  lemma SilentStrongSignalAccepted(c: Contact)
    requires c == Contact("AC_2024_002", "Area 51, Nevada", Radio, 8.5, 45, 5, None, false)
    ensures CreateContact(c) == Ok(c) && c.signalStrength > 7.0 && c.messageReceived.None?
  {
  }

  /** The validator with the strong-signal rule doing what its message says:
      a signal above 7 must come with a message. */
  function ValidateIntended(c: Contact): (r: Result<Contact, ContactError>)
    ensures r.Ok? ==> r.value == c
    ensures r.Ok? <==>
      ("AC" <= c.contactId && (c.contactType == Physical ==> c.isVerified)
       && (c.contactType == Telepathic ==> c.witnessCount >= 3)
       && (c.signalStrength > 7.0 ==> c.messageReceived.Some?))
    ensures r == Err(MissingMessage) <==> Validate(c).Ok? && c.signalStrength > 7.0 && c.messageReceived.None?
  {
    match Validate(c)
    case Err(e) => Err(e)
    case Ok(_) => if c.signalStrength > 7.0 && c.messageReceived.None? then Err(MissingMessage) else Ok(c)
  }

  /** The two validators differ exactly on strong signals without a message. */
  lemma IntendedDiffers(c: Contact)
    ensures ValidateIntended(c) != Validate(c) <==>
      (Validate(c).Ok? && c.signalStrength > 7.0 && c.messageReceived.None?)
  {
  }

  /** The demonstration: a radio contact is accepted; a telepathic one with
      two witnesses is refused for too few witnesses. */
  lemma ContactDemo(c: Contact)
    requires c == Contact("AC_2024_001", "Area 51, Nevada", Radio, 8.5, 45, 5, Some("Greetings from Zeta Reticuli"), false)
    ensures CreateContact(c) == Ok(c)
    ensures CreateContact(c.(contactType := Telepathic, witnessCount := 2)) == Err(TooFewWitnesses)
  {
  }
}
