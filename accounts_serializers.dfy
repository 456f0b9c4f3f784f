/**
 * The serializers of the accounts app: the login form with its field limits
 * and its own `validate`, and the user representation whose role and status
 * fields a client cannot write.
 */
module AccountSerializers {
  import opened Common
  import opened AccountModels

  // ----- Character fields -----

  /** `max_length` of the login form's username and password fields. */
  const UsernameMaxLength: nat := 150
  const PasswordMaxLength: nat := 128

  /** A field of a request body: left out, sent as JSON null, or sent as text. */
  datatype RawField = Absent | Null | Text(text: string)

  /** The messages a character field can refuse its value with. */
  datatype FieldError = Required | NotNull | Blank | TooLong | NullCharacter

  /** The NUL character, which every `CharField` refuses. */
  const Nul: char := '\0'

  /**
   * The characters `str.isspace` holds for, which `str.strip` removes: the
   * ASCII whitespace, the information separators U+001C to U+001F, and the
   * Unicode spaces and line separators.
   */
  predicate IsSpace(c: char) {
    || '\t' <= c <= '\r'
    || '\U{1C}' <= c <= ' '
    || c == '\U{85}' || c == '\U{A0}' || c == '\U{1680}'
    || '\U{2000}' <= c <= '\U{200A}'
    || c == '\U{2028}' || c == '\U{2029}' || c == '\U{202F}' || c == '\U{205F}' || c == '\U{3000}'
  }

  /** `s` without its leading whitespace: a suffix of `s` that starts with a non-space. */
  function TrimStart(s: string): (r: string)
    ensures |r| <= |s| && r == s[|s| - |r|..]
    ensures forall i :: 0 <= i < |s| - |r| ==> IsSpace(s[i])
    ensures r == [] || !IsSpace(r[0])
  {
    if |s| > 0 && IsSpace(s[0]) then TrimStart(s[1..]) else s
  }

  /** `s` without its trailing whitespace: a prefix of `s` that ends with a non-space. */
  function TrimEnd(s: string): (r: string)
    ensures |r| <= |s| && r == s[..|r|]
    ensures forall i :: |r| <= i < |s| ==> IsSpace(s[i])
    ensures r == [] || !IsSpace(r[|r| - 1])
  {
    if |s| > 0 && IsSpace(s[|s| - 1]) then TrimEnd(s[..|s| - 1]) else s
  }

  /**
   * `r` is the part of `s` that starts at `k`, and everything of `s` before or
   * after that part is whitespace.
   */
  ghost predicate MiddleOf(s: string, r: string, k: int) {
    && 0 <= k <= |s| - |r| && r == s[k..k + |r|]
    && (forall i :: 0 <= i < k ==> IsSpace(s[i]))
    && (forall i :: k + |r| <= i < |s| ==> IsSpace(s[i]))
  }

  /**
   * `str.strip`: the text between the leading and the trailing whitespace, that
   * is, the input with only surrounding whitespace cut from either side.
   */
  function Trim(s: string): (r: string)
    ensures |r| <= |s|
    ensures r == [] || (!IsSpace(r[0]) && !IsSpace(r[|r| - 1]))
    ensures r == [] <==> forall i :: 0 <= i < |s| ==> IsSpace(s[i])
    ensures exists k :: MiddleOf(s, r, k)
  {
    var t := TrimStart(s);
    assert t == [] ==> forall i :: 0 <= i < |s| ==> IsSpace(s[i]);
    assert t != [] ==> !IsSpace(s[|s| - |t|]);
    var r := TrimEnd(t);
    TrimIsMiddle(s, t, r);
    r
  }

  /**
   * Cutting leading whitespace off `s` to get `t`, then trailing whitespace off
   * `t` to get `r`, leaves the middle of `s` at the first non-space.
   */
  lemma TrimIsMiddle(s: string, t: string, r: string)
    requires |t| <= |s| && t == s[|s| - |t|..] && forall i :: 0 <= i < |s| - |t| ==> IsSpace(s[i])
    requires |r| <= |t| && r == t[..|r|] && forall i :: |r| <= i < |t| ==> IsSpace(t[i])
    ensures MiddleOf(s, r, |s| - |t|)
  {
    var k := |s| - |t|;
    assert r == s[k..k + |r|];
    forall i | k + |r| <= i < |s|
      ensures IsSpace(s[i])
    {
      assert s[i] == t[i - k];
    }
  }

  /** Text that neither starts nor ends with whitespace is its own trimming. */
  lemma TrimOfTrimmed(s: string)
    requires s == [] || (!IsSpace(s[0]) && !IsSpace(s[|s| - 1]))
    ensures Trim(s) == s
  {
  }

  /** Trimming twice is trimming once. */
  lemma TrimIdempotent(s: string)
    ensures Trim(Trim(s)) == Trim(s)
  {
    TrimOfTrimmed(Trim(s));
  }

  /** NUL is not whitespace, so dropping leading whitespace keeps or drops no NUL. */
  lemma {:induction false} NulSurvivesTrimStart(s: string)
    ensures Nul in s <==> Nul in TrimStart(s)
  {
    if |s| > 0 && IsSpace(s[0]) {
      assert s == [s[0]] + s[1..];
      assert s[0] != Nul;
      NulSurvivesTrimStart(s[1..]);
    }
  }

  /** NUL is not whitespace, so dropping trailing whitespace keeps or drops no NUL. */
  lemma {:induction false} NulSurvivesTrimEnd(s: string)
    ensures Nul in s <==> Nul in TrimEnd(s)
  {
    if |s| > 0 && IsSpace(s[|s| - 1]) {
      assert s == s[..|s| - 1] + [s[|s| - 1]];
      assert s[|s| - 1] != Nul;
      NulSurvivesTrimEnd(s[..|s| - 1]);
    }
  }

  /** The text holds NUL exactly when its trimming does. */
  lemma NulSurvivesTrim(s: string)
    ensures Nul in s <==> Nul in Trim(s)
  {
    NulSurvivesTrimStart(s);
    NulSurvivesTrimEnd(TrimStart(s));
  }

  /**
   * The messages of the field's validators on the trimmed text, all of them
   * and in their order: the `max_length` limit, then the refusal of NUL.
   */
  function ValidatorErrors(cleaned: string, maxLength: nat): (errors: seq<FieldError>)
    ensures errors == [] <==> |cleaned| <= maxLength && Nul !in cleaned
    ensures TooLong in errors <==> |cleaned| > maxLength
    ensures NullCharacter in errors <==> Nul in cleaned
    ensures |errors| == 2 ==> errors == [TooLong, NullCharacter]
  {
    (if |cleaned| > maxLength then [TooLong] else []) + (if Nul in cleaned then [NullCharacter] else [])
  }

  /**
   * A required, non-blank, whitespace-trimming `CharField(max_length)`: an
   * absent field is required, null is refused, text that trims to nothing is
   * blank, and the validators then check the trimmed text, which is what the
   * field yields.
   */
  function CleanCharField(value: RawField, maxLength: nat): (r: Result<string, seq<FieldError>>)
    ensures r == Err([Required]) <==> value.Absent?
    ensures r == Err([NotNull]) <==> value.Null?
    ensures r == Err([Blank]) <==> value.Text? && Trim(value.text) == []
    ensures value.Text? && Trim(value.text) != [] ==>
              && (r.Err? <==> |Trim(value.text)| > maxLength || Nul in value.text)
              && (r.Err? ==> r.error == ValidatorErrors(Trim(value.text), maxLength))
    ensures r.Ok? ==> && value.Text? && r.value == Trim(value.text)
                      && 0 < |r.value| <= maxLength && Nul !in r.value
  {
    match value
    case Absent => Err([Required])
    case Null => Err([NotNull])
    case Text(text) =>
      var cleaned := Trim(text);
      if cleaned == [] then Err([Blank])
      else
        NulSurvivesTrim(text);
        var errors := ValidatorErrors(cleaned, maxLength);
        if errors == [] then Ok(cleaned) else Err(errors)
  }

  /** Text of allowed length with no surrounding whitespace and no NUL passes the field unchanged. */
  lemma CleanTrimmedField(text: string, maxLength: nat)
    requires text != [] && !IsSpace(text[0]) && !IsSpace(text[|text| - 1])
    requires |text| <= maxLength && Nul !in text
    ensures CleanCharField(Text(text), maxLength) == Ok(text)
  {
    TrimOfTrimmed(text);
  }

  /** Text that trims to something within the limit, and holds no NUL, is accepted as trimmed. */
  lemma CleanFieldAccepted(text: string, maxLength: nat)
    requires Trim(text) != [] && |Trim(text)| <= maxLength && Nul !in text
    ensures CleanCharField(Text(text), maxLength) == Ok(Trim(text))
  {
  }

  /** Text made only of the separators U+001C to U+001F is blank, as `str.strip` removes them. */
  lemma SeparatorsAreBlank()
    ensures CleanCharField(Text("\U{1C}\U{1F}"), UsernameMaxLength) == Err([Blank])
  {
    assert forall i :: 0 <= i < |"\U{1C}\U{1F}"| ==> IsSpace("\U{1C}\U{1F}"[i]);
  }

  /** A username holding NUL is refused, even within the length limit. */
  lemma NulIsRefused()
    ensures CleanCharField(Text("a\0b"), UsernameMaxLength) == Err([NullCharacter])
  {
    TrimOfTrimmed("a\0b");
    assert "a\0b"[1] == Nul;
    assert ValidatorErrors("a\0b", UsernameMaxLength) == [NullCharacter];
  }

  // ----- The login form -----

  /** The body of a login request. */
  datatype LoginInput = LoginInput(username: RawField, password: RawField)

  /** The attributes `validate` receives; a key the fields did not produce reads as `None`. */
  datatype LoginAttrs = LoginAttrs(username: Option<string>, password: Option<string>)

  /** Why the login form was refused: per-field errors, or the message of `validate`. */
  datatype LoginErrors =
    | FieldErrors(usernameErrors: Option<seq<FieldError>>, passwordErrors: Option<seq<FieldError>>)
    | CredentialsRequired

  /**
   * `LoginSerializer.validate`: both the username (or email) and the password
   * must be present and non-empty; the attributes then pass through unchanged.
   */
  function Validate(attrs: LoginAttrs): (r: Result<LoginAttrs, LoginErrors>)
    ensures r.Ok? <==> && attrs.username.Some? && attrs.username.value != []
                       && attrs.password.Some? && attrs.password.value != []
    ensures r.Ok? ==> r.value == attrs
    ensures r.Err? ==> r.error == CredentialsRequired
  {
    if attrs.username.None? || attrs.username.value == [] || attrs.password.None? || attrs.password.value == [] then
      Err(CredentialsRequired)
    else
      Ok(attrs)
  }

  /** The errors of one field, if it has any. */
  function ErrorOf(r: Result<string, seq<FieldError>>): Option<seq<FieldError>> {
    if r.Err? then Some(r.error) else None
  }

  /**
   * `LoginSerializer.is_valid`: every field is cleaned and all field errors
   * are reported together; only when both fields are clean does `validate` run.
   */
  function CleanLogin(input: LoginInput): (r: Result<LoginAttrs, LoginErrors>)
    ensures r.Ok? <==> CleanCharField(input.username, UsernameMaxLength).Ok?
                       && CleanCharField(input.password, PasswordMaxLength).Ok?
    ensures r.Ok? ==> && r.value.username == Some(Trim(input.username.text))
                      && r.value.password == Some(Trim(input.password.text))
                      && 0 < |r.value.username.value| <= UsernameMaxLength
                      && 0 < |r.value.password.value| <= PasswordMaxLength
                      && Nul !in r.value.username.value && Nul !in r.value.password.value
    ensures r.Err? ==> r.error.FieldErrors?
    ensures r.Err? ==> r.error.usernameErrors == ErrorOf(CleanCharField(input.username, UsernameMaxLength))
                       && r.error.passwordErrors == ErrorOf(CleanCharField(input.password, PasswordMaxLength))
  {
    var username := CleanCharField(input.username, UsernameMaxLength);
    var password := CleanCharField(input.password, PasswordMaxLength);
    if username.Err? || password.Err? then
      Err(FieldErrors(ErrorOf(username), ErrorOf(password)))
    else
      ValidateAfterFields(username.value, password.value);
      Validate(LoginAttrs(Some(username.value), Some(password.value)))
  }

  /**
   * `validate` never refuses what the two fields let through: they already
   * refuse a missing or blank username or password.
   */
  lemma ValidateAfterFields(username: string, password: string)
    requires username != [] && password != []
    ensures Validate(LoginAttrs(Some(username), Some(password))) == Ok(LoginAttrs(Some(username), Some(password)))
  {
  }

  /**
   * A login body whose fields are text of allowed length, with something
   * besides whitespace and no NUL, is accepted as trimmed.
   */
  lemma LoginAccepted(username: string, password: string)
    requires Trim(username) != [] && |Trim(username)| <= UsernameMaxLength && Nul !in username
    requires Trim(password) != [] && |Trim(password)| <= PasswordMaxLength && Nul !in password
    ensures CleanLogin(LoginInput(Text(username), Text(password)))
            == Ok(LoginAttrs(Some(Trim(username)), Some(Trim(password))))
  {
    CleanFieldAccepted(username, UsernameMaxLength);
    CleanFieldAccepted(password, PasswordMaxLength);
  }

  // ----- The user representation -----

  /** The fields of `UserSerializer`, and those of them a client cannot write. */
  const UserFields: set<string> := {"id", "username", "email", "is_active", "is_staff", "is_admin", "wallet"}
  const ReadOnlyUserFields: set<string> := {"id", "is_active", "is_staff", "is_admin", "wallet"}

  /** The part of a request body `UserSerializer` accepts: known fields that are not read-only. */
  function WritableUserData(data: map<string, string>): (r: map<string, string>)
    ensures forall k :: k in r <==> k in data && k in UserFields && k !in ReadOnlyUserFields
    ensures forall k :: k in r ==> r[k] == data[k]
    ensures r.Keys <= {"username", "email"}
  {
    map k | k in data && k in UserFields - ReadOnlyUserFields :: data[k]
  }

  /**
   * Saving a request body through `UserSerializer`: only the username and the
   * email can change; the id, the status flags and the admin role stay.
   */
  function ApplyUserData(u: User, data: map<string, string>): (r: User)
    ensures r.id == u.id && r.isActive == u.isActive && r.isStaff == u.isStaff && r.isAdmin == u.isAdmin
    ensures r.username == if "username" in data then data["username"] else u.username
    ensures r.email == if "email" in data then data["email"] else u.email
  {
    var writable := WritableUserData(data);
    u.(username := if "username" in writable then writable["username"] else u.username,
       email := if "email" in writable then writable["email"] else u.email)
  }
}
