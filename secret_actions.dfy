/** Storing a vault secret: validate the form, encrypt the value with the
    vault's cipher, insert the ciphertext. */
module SecretActions {
  import opened Common
  import opened Strings
  import opened Schema

  /** A form field as received: missing, some value that is not a string,
      or a string. */
  datatype Field = Missing | NotAString | Text(text: string)

  /** The submitted form: not an object at all, or an object with the
      three fields. */
  datatype FormData =
    | NotAnObject
    | Form(orgId: Field, keyName: Field, secretValue: Field)

  datatype IssueKind = Required | InvalidType | InvalidUuid | TooShort(minimum: nat) | TooLong(maximum: nat)

  /** One validation issue, naming the field it concerns ("" for the form
      itself). */
  datatype Issue = Issue(path: string, kind: IssueKind)

  datatype SecretInput = SecretInput(orgId: string, keyName: string, secretValue: string)

  const KeyNameMaxLength := 255

  /** The textual UUID form of section 3 of RFC 4122: 8-4-4-4-12
      hexadecimal digits, either case, joined by hyphens. */
  predicate IsUuid(s: string)
  {
    && |s| == 36
    && s[8] == '-' && s[13] == '-' && s[18] == '-' && s[23] == '-'
    && forall i :: 0 <= i < 36 && i != 8 && i != 13 && i != 18 && i != 23 ==> IsHexDigit(s[i])
  }

  /** The issues of one string field under a check on its value. */
  function FieldIssues(path: string, f: Field, check: string -> seq<IssueKind>): (r: seq<Issue>)
    ensures f.Missing? ==> r == [Issue(path, Required)]
    ensures f.NotAString? ==> r == [Issue(path, InvalidType)]
    ensures f.Text? ==> |r| == |check(f.text)|
  {
    match f
    case Missing => [Issue(path, Required)]
    case NotAString => [Issue(path, InvalidType)]
    case Text(t) => seq(|check(t)|, i requires 0 <= i < |check(t)| => Issue(path, check(t)[i]))
  }

  function OrgIdChecks(s: string): seq<IssueKind>
  {
    if IsUuid(s) then [] else [InvalidUuid]
  }

  /** Lengths are JavaScript string lengths, in UTF-16 code units. */
  function KeyNameChecks(s: string): seq<IssueKind>
  {
    (if Utf16Length(s) < 1 then [TooShort(1)] else [])
      + (if Utf16Length(s) > KeyNameMaxLength then [TooLong(KeyNameMaxLength)] else [])
  }

  function SecretValueChecks(s: string): seq<IssueKind>
  {
    if Utf16Length(s) < 1 then [TooShort(1)] else []
  }

  /** `CreateSecretSchema.parse(formData)`: every issue of every field is
      collected; the input is accepted only when there is none. */
  function Validate(form: FormData): (r: Result<SecretInput, seq<Issue>>)
    ensures r.Success? <==>
      && form.Form?
      && form.orgId.Text? && IsUuid(form.orgId.text)
      && form.keyName.Text? && form.keyName.text != [] && Utf16Length(form.keyName.text) <= KeyNameMaxLength
      && form.secretValue.Text? && form.secretValue.text != []
    ensures r.Success? ==>
      r.value == SecretInput(form.orgId.text, form.keyName.text, form.secretValue.text)
    ensures r.Failure? ==> |r.error| >= 1
  {
    match form
    case NotAnObject => Failure([Issue("", InvalidType)])
    case Form(orgId, keyName, secretValue) =>
      var issues := FieldIssues("orgId", orgId, OrgIdChecks)
        + FieldIssues("keyName", keyName, KeyNameChecks)
        + FieldIssues("secretValue", secretValue, SecretValueChecks);
      if issues == [] then Success(SecretInput(orgId.text, keyName.text, secretValue.text))
      else Failure(issues)
  }

  /** A key name longer than 255 UTF-16 code units is refused, and the
      issue names the field. */
  lemma LongKeyNameRefused(orgId: string, keyName: string, secretValue: string)
    requires IsUuid(orgId) && Utf16Length(keyName) > KeyNameMaxLength && secretValue != ""
    ensures Validate(Form(Text(orgId), Text(keyName), Text(secretValue))) ==
      Failure([Issue("keyName", TooLong(KeyNameMaxLength))])
  {
    var form := Form(Text(orgId), Text(keyName), Text(secretValue));
    assert FieldIssues("orgId", Text(orgId), OrgIdChecks) == [];
    assert FieldIssues("secretValue", Text(secretValue), SecretValueChecks) == [];
    assert KeyNameChecks(keyName) == [TooLong(KeyNameMaxLength)];
    assert FieldIssues("keyName", Text(keyName), KeyNameChecks) == [Issue("keyName", TooLong(KeyNameMaxLength))];
    assert FieldIssues("orgId", Text(orgId), OrgIdChecks)
      + FieldIssues("keyName", Text(keyName), KeyNameChecks)
      + FieldIssues("secretValue", Text(secretValue), SecretValueChecks)
      == [Issue("keyName", TooLong(KeyNameMaxLength))];
  }

  /** 128 characters outside the Basic Multilingual Plane are 256 code
      units, one over the limit, though only 128 characters. */
  lemma AstralKeyNameRefused(orgId: string, keyName: string, secretValue: string)
    requires IsUuid(orgId) && secretValue != ""
    requires |keyName| == 128 && forall i :: 0 <= i < |keyName| ==> keyName[i] as int > 0xFFFF
    ensures Validate(Form(Text(orgId), Text(keyName), Text(secretValue))).Failure?
  {
    Utf16LengthAstral(keyName);
    LongKeyNameRefused(orgId, keyName, secretValue);
  }

  /** Within the Basic Multilingual Plane the limit is 255 characters. */
  lemma BmpKeyNameAccepted(orgId: string, keyName: string, secretValue: string)
    requires IsUuid(orgId) && secretValue != ""
    requires 1 <= |keyName| <= KeyNameMaxLength && forall i :: 0 <= i < |keyName| ==> keyName[i] as int <= 0xFFFF
    ensures Validate(Form(Text(orgId), Text(keyName), Text(secretValue))) ==
      Success(SecretInput(orgId, keyName, secretValue))
  {
    Utf16LengthBmp(keyName);
  }

  /** What the vault's cipher returns: ciphertext, initialisation vector
      and authentication tag. */
  datatype Encrypted = Encrypted(content: string, iv: string, tag: string)

  datatype SecretError = Invalid(issues: seq<Issue>) | EncryptionFailed(thrown: Thrown) | InsertFailed(error: DbError)

  /** The values object as written in the action: the tag goes under a
      key the table does not have, so the `auth_tag` column gets no value. */
  function InsertAsWritten(id: string, input: SecretInput, e: Encrypted): (v: SecretInsert)
    ensures v.orgId == input.orgId && v.keyName == input.keyName
    ensures v.encryptedValue == Some(e.content) && v.iv == Some(e.iv)
    ensures v.authTag.None?
  {
    SecretInsert(id, input.orgId, input.keyName, Some(e.content), Some(e.iv), None)
  }

  /** As written, no insert can succeed: the not-null `auth_tag` column is
      always left out. */
  lemma TagNeverStored(id: string, input: SecretInput, e: Encrypted, now: int)
    ensures SecretRow(InsertAsWritten(id, input, e), now) == Failure(NotNullViolation("auth_tag"))
  {
  }

  /** The values object with the tag under the table's own column. */
  function SecretInsertFor(id: string, input: SecretInput, e: Encrypted): (v: SecretInsert)
    ensures SecretRow(v, 0).Success?
    ensures forall now ::
      SecretRow(v, now) == Success(Secret(id, input.orgId, input.keyName, e.content, e.iv, e.tag, now))
  {
    SecretInsert(id, input.orgId, input.keyName, Some(e.content), Some(e.iv), Some(e.tag))
  }

  /** `createSecretAction(formData)` as written: validation, encryption,
      then an insert that the database always refuses. */
  method CreateSecretActionAsWritten(db: Database, form: FormData, encrypt: string -> Result<Encrypted, Thrown>,
                                     id: string, now: int)
    returns (r: Result<(), SecretError>)
    requires db.Valid()
    modifies db
    ensures db.Valid()
    ensures r.Failure?
    ensures Validate(form).Failure? ==> r == Failure(Invalid(Validate(form).error))
    ensures Validate(form).Success? && encrypt(Validate(form).value.secretValue).Success? ==>
      r == Failure(InsertFailed(NotNullViolation("auth_tag")))
    ensures db.secrets == old(db.secrets)
    ensures db.organizations == old(db.organizations) && db.users == old(db.users)
    ensures db.workflows == old(db.workflows) && db.auditLogs == old(db.auditLogs)
  {
    var input := Validate(form);
    if input.Failure? {
      return Failure(Invalid(input.error));
    }
    var encrypted := encrypt(input.value.secretValue);
    if encrypted.Failure? {
      return Failure(EncryptionFailed(encrypted.error));
    }
    var inserted := db.InsertSecret(InsertAsWritten(id, input.value, encrypted.value), now);
    if inserted.Failure? {
      return Failure(InsertFailed(inserted.error));
    }
    r := Success(());
  }

  /** `createSecretAction(formData)` with the tag stored in `auth_tag`.
      Never throws. Invalid input and failed encryption insert nothing; a
      valid form inserts exactly one row, whose value columns come from the
      cipher and never from the plaintext, and no existing row with the
      same key name is looked for. */
  method CreateSecretAction(db: Database, form: FormData, encrypt: string -> Result<Encrypted, Thrown>,
                            id: string, now: int)
    returns (r: Result<(), SecretError>)
    requires db.Valid()
    modifies db
    ensures db.Valid()
    ensures Validate(form).Failure? ==> r == Failure(Invalid(Validate(form).error))
    ensures Validate(form).Success? && encrypt(Validate(form).value.secretValue).Failure? ==>
      r == Failure(EncryptionFailed(encrypt(Validate(form).value.secretValue).error))
    ensures r.Success? <==>
      && Validate(form).Success?
      && encrypt(Validate(form).value.secretValue).Success?
      && !HasKey(old(db.secrets), SecretId, id)
      && Validate(form).value.orgId in old(db.organizations)
    ensures r.Success? ==>
      var input := Validate(form).value;
      var e := encrypt(input.secretValue).value;
      db.secrets == old(db.secrets) + [Secret(id, input.orgId, input.keyName, e.content, e.iv, e.tag, now)]
    ensures Validate(form).Success? && encrypt(Validate(form).value.secretValue).Success?
            && HasKey(old(db.secrets), SecretId, id) ==>
      r == Failure(InsertFailed(UniqueViolation("id")))
    ensures r.Failure? ==> db.secrets == old(db.secrets)
    ensures db.organizations == old(db.organizations) && db.users == old(db.users)
    ensures db.workflows == old(db.workflows) && db.auditLogs == old(db.auditLogs)
  {
    var input := Validate(form);
    if input.Failure? {
      return Failure(Invalid(input.error));
    }
    var encrypted := encrypt(input.value.secretValue);
    if encrypted.Failure? {
      return Failure(EncryptionFailed(encrypted.error));
    }
    var inserted := db.InsertSecret(SecretInsertFor(id, input.value, encrypted.value), now);
    if inserted.Failure? {
      return Failure(InsertFailed(inserted.error));
    }
    r := Success(());
  }
}
