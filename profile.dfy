/**
 * The profile form (src/app/profile/page.tsx).
 *
 * `handleChange` edits one field of the profile; `handleSubmit` validates
 * the name and then the age, and only then sends one upsert to the
 * `user_profiles` table, whose payload turns empty optional strings into
 * null.  The upserts the page sends are recorded in `upserts`; the
 * database's answer and the timestamp are inputs of `HandleSubmit`.
 */
module Profile {
  import opened Wrappers

  /** The form's `UserProfile` state. */
  datatype UserProfile = UserProfile(
    fullName: string,
    age: Option<int>,
    gender: string,
    skinType: string,
    mainConcerns: string,
    experienceLevel: string,
    avatarUrl: string)

  /** The initial `profile` state. */
  const InitialProfile := UserProfile("", None, "", "", "", "iniciante", "")

  /** The keys `handleChange` is called with. */
  datatype Field = FullName | Age | Gender | SkinType | MainConcerns | ExperienceLevel | AvatarUrl

  /** A value put into a field: text for the string fields, an optional number for the age. */
  datatype FieldValue = Text(text: string) | Number(number: Option<int>)

  /** The object sent with `.upsert(...)`. */
  datatype Payload = Payload(
    userId: string,
    fullName: string,
    age: Option<int>,
    gender: Option<string>,
    skinType: Option<string>,
    mainConcerns: Option<string>,
    experienceLevel: string,
    avatarUrl: Option<string>,
    updatedAt: string)

  /** The `type` of a message: 'success' or 'error'. */
  datatype MessageKind = SuccessKind | ErrorKind
  datatype Message = Message(kind: MessageKind, text: string)

  const NameRequired := "Nome completo é obrigatório"
  const AgeOutOfRange := "Idade deve estar entre 13 e 120 anos"
  const Saved := "Perfil salvo com sucesso!"
  const DefaultSaveError := "Erro ao salvar perfil"
  /** The placeholder user id the page sends in place of the signed-in user's. */
  const TempUserId := "temp-user-id"

  // ----- trim -----

  /** The characters `String.prototype.trim` removes: ECMAScript's
      WhiteSpace and LineTerminator code points. */
  predicate IsTrimmed(c: char)
  {
    || '\U{0009}' <= c <= '\U{000D}'
    || c == ' ' || c == '\U{00A0}' || c == '\U{1680}'
    || '\U{2000}' <= c <= '\U{200A}'
    || c == '\U{2028}' || c == '\U{2029}' || c == '\U{202F}' || c == '\U{205F}'
    || c == '\U{3000}' || c == '\U{FEFF}'
  }

  /** `s` without its leading whitespace. */
  function TrimStart(s: string): (r: string)
    ensures r == [] || !IsTrimmed(r[0])
    ensures |r| <= |s|
  {
    if s != [] && IsTrimmed(s[0]) then TrimStart(s[1..]) else s
  }

  /** Leading-whitespace removal only drops characters from the front. */
  lemma {:induction false} TrimStartIsSuffix(s: string)
    ensures var r := TrimStart(s); r == s[|s| - |r|..]
  {
    if s != [] && IsTrimmed(s[0]) {
      TrimStartIsSuffix(s[1..]);
      var r := TrimStart(s[1..]);
      assert s[1..][|s| - 1 - |r|..] == s[|s| - |r|..];
    }
  }

  /** Leading-whitespace removal drops only whitespace. */
  lemma {:induction false} TrimStartDropsBlank(s: string)
    ensures Blank(s[..|s| - |TrimStart(s)|])
  {
    if s != [] && IsTrimmed(s[0]) {
      TrimStartDropsBlank(s[1..]);
      var k := |s| - |TrimStart(s)|;
      forall i | 0 <= i < k ensures IsTrimmed(s[i]) {
        if i > 0 { assert s[i] == s[1..][..|s| - 1 - |TrimStart(s[1..])|][i - 1]; }
      }
    }
  }

  /** `s` without its trailing whitespace. */
  function TrimEnd(s: string): (r: string)
    ensures r == [] || !IsTrimmed(r[|r| - 1])
    ensures r <= s
  {
    if s != [] && IsTrimmed(s[|s| - 1]) then TrimEnd(s[..|s| - 1]) else s
  }

  /** Trailing-whitespace removal drops only whitespace. */
  lemma {:induction false} TrimEndDropsBlank(s: string)
    ensures Blank(s[|TrimEnd(s)|..])
  {
    if s != [] && IsTrimmed(s[|s| - 1]) {
      var t := s[..|s| - 1];
      TrimEndDropsBlank(t);
      var k := |TrimEnd(s)|;
      forall i | k <= i < |s| ensures IsTrimmed(s[i]) {
        if i < |s| - 1 { assert s[i] == t[k..][i - k]; }
      }
    }
  }

  /** `s.trim()`. */
  function Trim(s: string): (r: string)
    ensures r == [] || (!IsTrimmed(r[0]) && !IsTrimmed(r[|r| - 1]))
    ensures |r| <= |s|
  {
    TrimEnd(TrimStart(s))
  }

  predicate Blank(s: string)
  {
    forall i :: 0 <= i < |s| ==> IsTrimmed(s[i])
  }

  lemma {:induction false} TrimStartEmpty(s: string)
    ensures TrimStart(s) == [] <==> Blank(s)
  {
    if s != [] && IsTrimmed(s[0]) {
      TrimStartEmpty(s[1..]);
      assert TrimStart(s) == TrimStart(s[1..]);
      assert Blank(s) <==> Blank(s[1..]) by {
        if Blank(s[1..]) {
          forall i | 0 <= i < |s| ensures IsTrimmed(s[i]) { if i > 0 { assert s[i] == s[1..][i - 1]; } }
        }
      }
    } else {
      assert TrimStart(s) == s;
      assert s != [] ==> !Blank(s);
    }
  }

  lemma {:induction false} TrimEndEmpty(s: string)
    requires s == [] || !IsTrimmed(s[0])
    ensures TrimEnd(s) == [] <==> s == []
  {
    if s != [] && IsTrimmed(s[|s| - 1]) {
      TrimEndEmpty(s[..|s| - 1]);
    }
  }

  /** `s.trim()` is a slice of `s` with only whitespace cut off either side. */
  lemma TrimDropsOnlyBlank(s: string)
    ensures exists i, j :: 0 <= i <= j <= |s| && Trim(s) == s[i..j] && Blank(s[..i]) && Blank(s[j..])
  {
    var t := TrimStart(s);
    var i := |s| - |t|;
    TrimStartIsSuffix(s);
    TrimStartDropsBlank(s);
    TrimEndDropsBlank(t);
    var j := i + |TrimEnd(t)|;
    assert t == s[i..];
    assert Trim(s) == t[..j - i] == s[i..j];
    assert t[j - i..] == s[j..];
  }

  /** `!s.trim()` holds exactly for strings made only of whitespace. */
  lemma TrimEmptyIffBlank(s: string)
    ensures Trim(s) == [] <==> Blank(s)
  {
    TrimStartEmpty(s);
    TrimEndEmpty(TrimStart(s));
  }

  // ----- validation and payload -----

  /** JavaScript truthiness of the age: a number other than 0. */
  predicate AgeGiven(age: Option<int>)
  {
    age.Some? && age.value != 0
  }

  /** The two checks of `handleSubmit`, the name first. */
  function ValidationError(p: UserProfile): (e: Option<string>)
    ensures Blank(p.fullName) ==> e == Some(NameRequired)
    ensures !Blank(p.fullName) && AgeGiven(p.age) && (p.age.value < 13 || p.age.value > 120) ==>
      e == Some(AgeOutOfRange)
    ensures e == None <==>
      !Blank(p.fullName) && (AgeGiven(p.age) ==> 13 <= p.age.value <= 120)
  {
    TrimEmptyIffBlank(p.fullName);
    if Trim(p.fullName) == [] then Some(NameRequired)
    else if AgeGiven(p.age) && (p.age.value < 13 || p.age.value > 120) then Some(AgeOutOfRange)
    else None
  }

  /** `value || null` for a string. */
  function NullIfEmpty(s: string): (r: Option<string>)
    ensures r == None <==> s == ""
    ensures r.Some? ==> r.value == s
  {
    if s == "" then None else Some(s)
  }

  /** The upsert payload built from the profile at time `now`. */
  function PayloadOf(p: UserProfile, now: string): (q: Payload)
    ensures q.userId == TempUserId && q.updatedAt == now
    ensures q.fullName == p.fullName && q.age == p.age && q.experienceLevel == p.experienceLevel
  {
    Payload(TempUserId, p.fullName, p.age, NullIfEmpty(p.gender), NullIfEmpty(p.skinType),
            NullIfEmpty(p.mainConcerns), p.experienceLevel, NullIfEmpty(p.avatarUrl), now)
  }

  /** The payload passes name, age and experience level unchanged, maps each
      empty optional string to null and keeps each non-empty one. */
  lemma PayloadMapsEmptyToNull(p: UserProfile, now: string)
    ensures var q := PayloadOf(p, now);
      && q.fullName == p.fullName && q.age == p.age && q.experienceLevel == p.experienceLevel
      && q.userId == TempUserId && q.updatedAt == now
      && (q.gender == None <==> p.gender == "") && (q.gender.Some? ==> q.gender.value == p.gender)
      && (q.skinType == None <==> p.skinType == "") && (q.skinType.Some? ==> q.skinType.value == p.skinType)
      && (q.mainConcerns == None <==> p.mainConcerns == "")
      && (q.mainConcerns.Some? ==> q.mainConcerns.value == p.mainConcerns)
      && (q.avatarUrl == None <==> p.avatarUrl == "") && (q.avatarUrl.Some? ==> q.avatarUrl.value == p.avatarUrl)
  {
  }

  // ----- handleChange -----

  /** Whether `v` has the type of field `f`. */
  predicate Fits(f: Field, v: FieldValue)
  {
    (f == Age) == v.Number?
  }

  /** The value held in field `f`. */
  function Get(p: UserProfile, f: Field): (v: FieldValue)
    ensures Fits(f, v)
  {
    match f
    case FullName => Text(p.fullName)
    case Age => Number(p.age)
    case Gender => Text(p.gender)
    case SkinType => Text(p.skinType)
    case MainConcerns => Text(p.mainConcerns)
    case ExperienceLevel => Text(p.experienceLevel)
    case AvatarUrl => Text(p.avatarUrl)
  }

  /** `{ ...prev, [field]: value }`: field `f` holds `v`, every other field is unchanged. */
  function With(p: UserProfile, f: Field, v: FieldValue): (r: UserProfile)
    requires Fits(f, v)
    ensures Get(r, f) == v
    ensures forall g :: g != f ==> Get(r, g) == Get(p, g)
  {
    match f
    case FullName => p.(fullName := v.text)
    case Age => p.(age := v.number)
    case Gender => p.(gender := v.text)
    case SkinType => p.(skinType := v.text)
    case MainConcerns => p.(mainConcerns := v.text)
    case ExperienceLevel => p.(experienceLevel := v.text)
    case AvatarUrl => p.(avatarUrl := v.text)
  }

  // ----- the page -----

  /** The state of `ProfilePage`. */
  class ProfilePage {
    var loading: bool
    var saving: bool
    var profile: UserProfile
    var message: Option<Message>
    /** The payloads sent to `user_profiles`, oldest first. */
    var upserts: seq<Payload>

    constructor ()
      ensures loading && !saving && profile == InitialProfile && message == None && upserts == []
    {
      loading := true;
      saving := false;
      profile := InitialProfile;
      message := None;
      upserts := [];
    }

    /** `loadProfile`: nothing is fetched yet; the page only stops loading. */
    method LoadProfile()
      modifies this
      ensures !loading
      ensures saving == old(saving) && profile == old(profile) && message == old(message)
      ensures upserts == old(upserts)
    {
      loading := false;
    }

    /** `handleChange(field, value)`. */
    method HandleChange(f: Field, v: FieldValue)
      requires Fits(f, v)
      modifies this
      ensures profile == With(old(profile), f, v)
      ensures loading == old(loading) && saving == old(saving) && message == old(message)
      ensures upserts == old(upserts)
    {
      profile := With(profile, f, v);
    }

    /** `handleSubmit`.  `dbError` is the error the upsert answers with, if
        any (its `message`); `now` is the timestamp of the attempt.  An
        invalid profile is reported without an upsert; a valid one is sent
        once, and the answer decides the message.  `saving` is false on
        every exit. */
    method HandleSubmit(now: string, dbError: Option<string>)
      modifies this
      ensures !saving
      ensures profile == old(profile) && loading == old(loading)
      ensures ValidationError(old(profile)).Some? ==>
        && upserts == old(upserts)
        && message == Some(Message(ErrorKind, ValidationError(old(profile)).value))
      ensures ValidationError(old(profile)).None? ==>
        && upserts == old(upserts) + [PayloadOf(old(profile), now)]
        && message == Some(
             if dbError.None? then Message(SuccessKind, Saved)
             else Message(ErrorKind, if dbError.value != "" then dbError.value else DefaultSaveError))
    {
      var p := profile;
      saving := true;
      message := None;
      TrimEmptyIffBlank(p.fullName);
      if Trim(p.fullName) == [] {
        message := Some(Message(ErrorKind, NameRequired));
        saving := false;
        return;
      }
      if AgeGiven(p.age) && (p.age.value < 13 || p.age.value > 120) {
        message := Some(Message(ErrorKind, AgeOutOfRange));
        saving := false;
        return;
      }
      upserts := upserts + [PayloadOf(p, now)];
      if dbError.Some? {
        message := Some(Message(ErrorKind, if dbError.value != "" then dbError.value else DefaultSaveError));
      } else {
        message := Some(Message(SuccessKind, Saved));
      }
      saving := false;
    }
  }

  /** A blank name is reported even when the age is also out of range. */
  lemma NameCheckedBeforeAge(p: UserProfile)
    requires Blank(p.fullName)
    requires AgeGiven(p.age) && (p.age.value < 13 || p.age.value > 120)
    ensures ValidationError(p) == Some(NameRequired)
  {
  }

  /** A missing age or an age of 0 skips the range check. */
  lemma FalsyAgeSkipsCheck(p: UserProfile)
    requires !Blank(p.fullName) && !AgeGiven(p.age)
    ensures ValidationError(p) == None
  {
  }
}
