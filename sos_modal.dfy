/** The SOS dialog: the user picks an emergency type, optionally adds a
    description, a voice note and the silent flag, chooses whom to contact
    automatically, and sends the alert from the current position. */
module SosModal {
  import opened Common
  import opened Schema
  import TriggerSos

  /** Campus security and the trusted circle are contacted by default,
      police and ambulance are not. */
  const DefaultAutoContact := TriggerSos.AutoContactFlags(true, false, false, true)

  datatype ContactFlag = CampusSecurity | Police | Ambulance | TrustedCircle

  /** The effect on `selectedType`: assault turns police on, medical turns
      ambulance on; nothing is ever turned off. */
  function TypeRule(flags: TriggerSos.AutoContactFlags, selectedType: string): (r: TriggerSos.AutoContactFlags)
    ensures r.police == (flags.police || selectedType == "assault")
    ensures r.ambulance == (flags.ambulance || selectedType == "medical")
    ensures r.campusSecurity == flags.campusSecurity && r.trustedCircle == flags.trustedCircle
  {
    if selectedType == "assault" then flags.(police := true)
    else if selectedType == "medical" then flags.(ambulance := true)
    else flags
  }

  /** Applying the effect twice for one type is the same as applying it
      once, and the effects of two types do not depend on their order. */
  lemma TypeRuleIsIdempotentAndAdds(flags: TriggerSos.AutoContactFlags, t: string, u: string)
    ensures TypeRule(TypeRule(flags, t), t) == TypeRule(flags, t)
    ensures TypeRule(TypeRule(flags, t), u) == TypeRule(TypeRule(flags, u), t)
  {
  }

  /** One of the four switches. */
  function SetFlag(flags: TriggerSos.AutoContactFlags, flag: ContactFlag, checked: bool): TriggerSos.AutoContactFlags {
    match flag
    case CampusSecurity => flags.(campusSecurity := checked)
    case Police => flags.(police := checked)
    case Ambulance => flags.(ambulance := checked)
    case TrustedCircle => flags.(trustedCircle := checked)
  }

  /** The request `handleSendSOS` posts. */
  function SendRequest(lat: real, lng: real, description: string, selectedType: string,
                       voiceNoteUrl: Option<string>, silent: bool, flags: TriggerSos.AutoContactFlags)
    : (r: TriggerSos.SosRequest)
    ensures r.kind == Some(Sos) && r.latitude == Some(lat) && r.longitude == Some(lng)
    ensures r.emergencyType == Some(selectedType) && r.description == Some(description)
    ensures r.isSilentAlert == Some(silent) && r.autoContact == Some(flags) && r.voiceNoteUrl == voiceNoteUrl
    ensures r.triggeredByShake.None? && r.triggeredByCalculator.None?
  {
    TriggerSos.SosRequest(Some(Sos), Some(lat), Some(lng), Some(description), Some(selectedType),
                          voiceNoteUrl, Some(silent), None, None, Some(flags))
  }

  class SosDialog {
    var selectedType: string
    var description: string
    var silent: bool
    var hasRecording: bool
    var autoContact: TriggerSos.AutoContactFlags
    var sending: bool
    var sent: seq<TriggerSos.SosRequest>
    var closed: bool

    constructor ()
      ensures selectedType == "" && description == "" && !silent && !hasRecording
      ensures autoContact == DefaultAutoContact && !sending && sent == [] && !closed
    {
      selectedType, description, silent, hasRecording := "", "", false, false;
      autoContact, sending, sent, closed := DefaultAutoContact, false, [], false;
    }

    /** Choosing a type. The effect runs only when the type actually
        changes, so clicking the chosen type again keeps switches the user
        turned off. */
    method SelectType(t: string)
      modifies this`selectedType, this`autoContact
      ensures selectedType == t
      ensures autoContact == if t == old(selectedType) then old(autoContact) else TypeRule(old(autoContact), t)
    {
      if t != selectedType {
        autoContact := TypeRule(autoContact, t);
      }
      selectedType := t;
    }

    /** The police switch is shown only for assault and the ambulance
        switch only for medical; the other two are always shown. */
    predicate SwitchShown(flag: ContactFlag)
      reads this
    {
      match flag
      case Police => selectedType == "assault"
      case Ambulance => selectedType == "medical"
      case _ => true
    }

    method Toggle(flag: ContactFlag, checked: bool)
      requires SwitchShown(flag)
      modifies this`autoContact
      ensures autoContact == SetFlag(old(autoContact), flag, checked)
    {
      autoContact := SetFlag(autoContact, flag, checked);
    }

    method Edit(newDescription: string, newSilent: bool, recorded: bool)
      modifies this`description, this`silent, this`hasRecording
      ensures description == newDescription && silent == newSilent && hasRecording == recorded
    {
      description, silent, hasRecording := newDescription, newSilent, recorded;
    }

    /** The send button is disabled without a type or while sending. */
    predicate CanSend()
      reads this
    {
      selectedType != "" && !sending
    }

    /** `handleSendSOS`: refused without a type, aborted without a
        position; a voice note is uploaded only if one was recorded (a
        failed upload sends no URL); after a successful send the form is
        reset except for the auto-contact choices. */
    method Send(position: Option<(real, real)>, uploadedUrl: Option<string>, sendFails: bool)
      modifies this`selectedType, this`description, this`silent, this`hasRecording, this`sending,
        this`sent, this`closed
      ensures sending == (old(selectedType) == "" && old(sending))
      ensures old(selectedType) == "" || position.None? ==>
        sent == old(sent) && selectedType == old(selectedType) && description == old(description) &&
        silent == old(silent) && hasRecording == old(hasRecording) && closed == old(closed)
      ensures old(selectedType) != "" && position.Some? ==>
        sent == old(sent) + [SendRequest(position.value.0, position.value.1, old(description), old(selectedType),
                                         if old(hasRecording) then uploadedUrl else None, old(silent), autoContact)]
      ensures old(selectedType) != "" && position.Some? && !sendFails ==>
        closed && selectedType == "" && description == "" && !silent && !hasRecording
      ensures old(selectedType) != "" && position.Some? && sendFails ==>
        closed == old(closed) && selectedType == old(selectedType) && description == old(description) &&
        silent == old(silent) && hasRecording == old(hasRecording)
    {
      if selectedType == "" {
        return;
      }
      sending := true;
      if position.None? {
        sending := false;
        return;
      }
      var voiceNoteUrl := if hasRecording then uploadedUrl else None;
      sent := sent + [SendRequest(position.value.0, position.value.1, description, selectedType,
                                  voiceNoteUrl, silent, autoContact)];
      if !sendFails {
        closed := true;
        selectedType, description, silent, hasRecording := "", "", false, false;
      }
      sending := false;
    }
  }

  /** Choosing assault turns police on; a user who then switches police off
      and clicks assault again keeps police off. */
  method ReselectKeepsSwitchedOffPolice(d: SosDialog)
    requires d.selectedType != "assault"
    modifies d
    ensures d.selectedType == "assault" && !d.autoContact.police
    ensures d.autoContact == old(d.autoContact).(police := false)
  {
    d.SelectType("assault");
    assert d.autoContact.police;
    d.Toggle(Police, false);
    d.SelectType("assault");
  }
}
