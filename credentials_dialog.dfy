/** The dialog that edits a team's Correios credentials (`CredentialsDialog`): a looser schema
    than the personal form, the form values it resets from stored credentials, and the requests
    its submit and delete buttons send. The server's answer to a request is a parameter. */
module CredentialsDialog {
  import opened Common
  import Trpc
  import Store
  import opened CorreiosSecretForm

  const IdentifierTooShort: string := "CPF/CNPJ must have at least 11 characters"
  const IdentifierTooLong: string := "CPF/CNPJ must have at most 14 characters"
  const AccessCodeRequired: string := "Access code is required"
  const ContractRequired: string := "Contract is required"

  /** A request the dialog sends. */
  datatype Request =
    | SaveTeamCredentials(teamId: string, fields: CredentialFields)
    | DeleteCredentials(teamId: string)

  /** How a mutation settles. */
  datatype Settled = Succeeded | Failed(message: string)

  /** `credentialsSchema`: the identifier has 11 to 14 characters, with no check of its digits;
      the access code and the contract are only required. */
  function SchemaError(v: CredentialFields): (e: Option<string>)
    ensures e.None? <==> && Trpc.MinLength(v.identifier, 11) && Trpc.MaxLength(v.identifier, 14)
                         && v.accessCode != [] && v.contract != []
  {
    Trpc.MinOneIffNonEmpty(v.accessCode);
    Trpc.MinOneIffNonEmpty(v.contract);
    if !Trpc.MinLength(v.identifier, 11) then Some(IdentifierTooShort)
    else if !Trpc.MaxLength(v.identifier, 14) then Some(IdentifierTooLong)
    else if !Trpc.MinLength(v.accessCode, 1) then Some(AccessCodeRequired)
    else if !Trpc.MinLength(v.contract, 1) then Some(ContractRequired)
    else None
  }

  /** The dialog accepts everything the personal form accepts, and more: identifiers without
      enough digits, for instance. */
  lemma DialogLooserThanForm(v: CredentialFields)
    requires FormValid(v)
    ensures SchemaError(v).None?
  {
  }

  /** An identifier of 11 to 14 characters without digits: the dialog accepts it, the personal
      form does not. */
  lemma DialogAcceptsWhatFormRejects(v: CredentialFields)
    requires 11 <= |v.identifier| <= 14
    requires forall i :: 0 <= i < |v.identifier| ==> v.identifier[i] as int < 0x1_0000 && !IsAsciiDigit(v.identifier[i])
    requires v.accessCode != [] && v.contract != []
    ensures SchemaError(v).None?
    ensures !FormValid(v)
  {
    NoDigitsIsNotCpf(v.identifier);
  }

  /** The form values for the stored credentials: each field, or "" when there are none. */
  function DefaultsFor(stored: Option<Store.Credential>): (v: CredentialFields)
    ensures stored.None? ==> v == CredentialFields("", "", "")
    ensures stored.Some? ==> v == CredentialFields(stored.value.identifier, stored.value.accessCode, stored.value.contract)
  {
    match stored
    case None => CredentialFields("", "", "")
    case Some(c) => CredentialFields(c.identifier, c.accessCode, c.contract)
  }

  /** One open dialog for one team. */
  class Dialog {
    const teamId: string
    var stored: Option<Store.Credential>
    var values: CredentialFields
    var rootError: Option<string>
    var open: bool
    var sent: seq<Request>

    constructor(teamId: string, stored: Option<Store.Credential>)
      ensures this.teamId == teamId && this.stored == stored
      ensures values == DefaultsFor(stored) && rootError.None? && !open && sent == []
    {
      this.teamId := teamId;
      this.stored := stored;
      values := DefaultsFor(stored);
      rootError := None;
      open := false;
      sent := [];
    }

    /** The effect on fetched credentials: present ones reset the form to their values; an
        absent answer leaves the form as it is. */
    method CredentialsFetched(fetched: Option<Store.Credential>)
      modifies this
      ensures stored == fetched && rootError == old(rootError) && open == old(open) && sent == old(sent)
      ensures fetched.Some? ==> values == DefaultsFor(fetched)
      ensures fetched.None? ==> values == old(values)
    {
      stored := fetched;
      if fetched.Some? {
        values := DefaultsFor(fetched);
      }
    }

    /** Submit: values the schema rejects send nothing; valid ones send the team id with the
        three fields. A success closes the dialog, a failure shows its message. */
    method Submit(v: CredentialFields, outcome: Settled)
      modifies this
      ensures stored == old(stored) && values == old(values)
      ensures SchemaError(v).Some? ==> sent == old(sent) && rootError == old(rootError) && open == old(open)
      ensures SchemaError(v).None? ==> sent == old(sent) + [SaveTeamCredentials(teamId, v)]
      ensures SchemaError(v).None? && outcome.Succeeded? ==> !open && rootError == old(rootError)
      ensures SchemaError(v).None? && outcome.Failed? ==> open == old(open) && rootError == Some(outcome.message)
    {
      if SchemaError(v).Some? {
        return;
      }
      sent := sent + [SaveTeamCredentials(teamId, v)];
      match outcome
      case Succeeded => open := false;
      case Failed(message) => rootError := Some(message);
    }

    /** `onOpenChange={setOpen}`: the trigger button opens the dialog and dismissing it closes
        it; nothing else changes. */
    method OpenChanged(o: bool)
      modifies this
      ensures open == o
      ensures stored == old(stored) && values == old(values) && rootError == old(rootError) && sent == old(sent)
    {
      open := o;
    }

    /** Delete: nothing is sent when no credentials are stored. */
    method Delete()
      modifies this
      ensures stored == old(stored) && values == old(values) && rootError == old(rootError) && open == old(open)
      ensures stored.None? ==> sent == old(sent)
      ensures stored.Some? ==> sent == old(sent) + [DeleteCredentials(teamId)]
    {
      if stored.None? {
        return;
      }
      sent := sent + [DeleteCredentials(teamId)];
    }
  }
}
