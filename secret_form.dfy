/** The form that stores a user's Correios credentials (`CorreiosSecretForm`): its schema and
    the values it submits. The checks of a field run in order and the form shows the first
    that fails. */
module CorreiosSecretForm {
  import opened Common
  import opened Seqs
  import Trpc
  import CorreiosRouter

  /** The three fields of the form. */
  datatype CredentialFields = CredentialFields(identifier: string, accessCode: string, contract: string)

  const IdentifierTooShort: string := "CPF/CNPJ deve ter no mínimo 11 caracteres"
  const IdentifierTooLong: string := "CPF/CNPJ deve ter no máximo 14 caracteres"
  const IdentifierNotCpfOrCnpj: string := "Digite um CPF (11 dígitos) ou CNPJ (14 dígitos) válido"
  const AccessCodeTooShort: string := "Código de acesso deve ter no mínimo 8 caracteres"
  const AccessCodeTooLong: string := "Código de acesso deve ter no máximo 50 caracteres"
  const AccessCodeBadChars: string := "Código de acesso deve conter apenas letras, números e caracteres especiais (@#$%^&+=!)"
  const ContractRequired: string := "Contrato é obrigatório"
  const ContractNotNumeric: string := "Contrato deve conter apenas números"

  /** `value.replace(/\D/g, "")`: the ASCII digits of `s`, in order. */
  function Digits(s: string): (d: string)
    ensures |d| <= |s|
    ensures forall i :: 0 <= i < |d| ==> IsAsciiDigit(d[i])
  {
    Filter(IsAsciiDigit, s)
  }

  /** The refinement: 11 digits (a CPF) or 14 (a CNPJ) once everything else is removed. */
  predicate IsCpfOrCnpj(s: string) {
    |Digits(s)| == 11 || |Digits(s)| == 14
  }

  /** The characters `/^[A-Za-z0-9@#$%^&+=!]*$/` allows. */
  predicate IsAccessCodeChar(c: char) {
    IsAsciiLetter(c) || IsAsciiDigit(c) || c in "@#$%^&+=!"
  }

  /** The first failing check of `identifier`, if any. */
  function IdentifierError(s: string): (e: Option<string>)
    ensures e.None? <==> Trpc.MinLength(s, 11) && Trpc.MaxLength(s, 14) && IsCpfOrCnpj(s)
  {
    if !Trpc.MinLength(s, 11) then Some(IdentifierTooShort)
    else if !Trpc.MaxLength(s, 14) then Some(IdentifierTooLong)
    else if !IsCpfOrCnpj(s) then Some(IdentifierNotCpfOrCnpj)
    else None
  }

  /** The first failing check of `accessCode`, if any. */
  function AccessCodeError(s: string): (e: Option<string>)
    ensures e.None? <==> && Trpc.MinLength(s, 8) && Trpc.MaxLength(s, 50)
                         && forall i :: 0 <= i < |s| ==> IsAccessCodeChar(s[i])
  {
    if !Trpc.MinLength(s, 8) then Some(AccessCodeTooShort)
    else if !Trpc.MaxLength(s, 50) then Some(AccessCodeTooLong)
    else if exists i :: 0 <= i < |s| && !IsAccessCodeChar(s[i]) then Some(AccessCodeBadChars)
    else None
  }

  /** The first failing check of `contract`, if any: at least one character, digits only. */
  function ContractError(s: string): (e: Option<string>)
    ensures e.None? <==> s != [] && forall i :: 0 <= i < |s| ==> IsAsciiDigit(s[i])
  {
    Trpc.MinOneIffNonEmpty(s);
    if !Trpc.MinLength(s, 1) then Some(ContractRequired)
    else if exists i :: 0 <= i < |s| && !IsAsciiDigit(s[i]) then Some(ContractNotNumeric)
    else None
  }

  /** The form accepts `v`. */
  predicate FormValid(v: CredentialFields) {
    IdentifierError(v.identifier).None? && AccessCodeError(v.accessCode).None? && ContractError(v.contract).None?
  }

  /** `onSubmit`: runs only for valid values, and sends them unchanged to `saveCredentials`,
      without a regional number. */
  function Submit(v: CredentialFields): (payload: Option<CorreiosRouter.SaveInput>)
    ensures payload.Some? <==> FormValid(v)
    ensures payload.Some? ==> payload.value.identifier == v.identifier && payload.value.accessCode == v.accessCode
                              && payload.value.contract == v.contract && payload.value.regionalNumber.None?
  {
    if FormValid(v) then Some(CorreiosRouter.SaveInput(v.identifier, v.accessCode, v.contract, None)) else None
  }

  /** Whatever the form submits passes the server's own schema: the form's checks are stricter. */
  lemma SubmittedPassesServerSchema(v: CredentialFields)
    requires Submit(v).Some?
    ensures CorreiosRouter.ValidateSaveInput(Submit(v).value) == []
  {
    Trpc.MinOneIffNonEmpty(v.contract);
  }

  /** A CPF written with its usual punctuation, "ddd.ddd.ddd-dd", passes: 14 characters,
      11 digits. */
  lemma PunctuatedCpfPasses(a: string, b: string, c: string, d: string)
    requires |a| == 3 && |b| == 3 && |c| == 3 && |d| == 2
    requires AllDigits(a) && AllDigits(b) && AllDigits(c) && AllDigits(d)
    ensures IdentifierError(a + "." + b + "." + c + "-" + d).None?
  {
    var r3 := ['-'] + d;
    var r2 := ['.'] + (c + r3);
    var r1 := ['.'] + (b + r2);
    assert a + "." + b + "." + c + "-" + d == a + r1;
    assert r3[1..] == d && r2[1..] == c + r3 && r1[1..] == b + r2;
    DigitsOfGroups(d, []);
    assert d + [] == d;
    DigitsOfGroups(c, r3);
    DigitsOfGroups(b, r2);
    DigitsOfGroups(a, r1);
    assert Digits(a + r1) == a + (b + (c + d));
  }

  predicate AllDigits(s: string) {
    forall i :: 0 <= i < |s| ==> IsAsciiDigit(s[i])
  }

  /** The digits of a group of digits followed by a separator and the rest. */
  lemma DigitsOfGroups(group: string, rest: string)
    requires AllDigits(group)
    ensures rest != [] && !IsAsciiDigit(rest[0]) ==> Digits(group + rest) == group + Digits(rest[1..])
    ensures rest == [] ==> Digits(group + rest) == group
  {
    FilterKeepsAll(IsAsciiDigit, group);
    FilterConcat(IsAsciiDigit, group, rest);
  }

  /** Eleven to fourteen characters without a digit have the length of a CPF or CNPJ, but the
      form rejects them: eleven letters fail here while the team dialog accepts them. */
  lemma NoDigitsIsNotCpf(s: string)
    requires 11 <= |s| <= 14
    requires forall i :: 0 <= i < |s| ==> s[i] as int < 0x1_0000 && !IsAsciiDigit(s[i])
    ensures IdentifierError(s) == Some(IdentifierNotCpfOrCnpj)
  {
    NoDigitsNoneKept(s);
  }

  /** Filtering digits out of a string without digits leaves nothing. */
  lemma {:induction false} NoDigitsNoneKept(s: string)
    requires forall i :: 0 <= i < |s| ==> !IsAsciiDigit(s[i])
    ensures Digits(s) == []
  {
    if s != [] {
      NoDigitsNoneKept(s[1..]);
    }
  }
}
