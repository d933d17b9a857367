/** src/lib/validation/schemas.ts: the zod schemas for the user, key and provider forms, as
    parsers from form input to validated data. As in zod, every field is checked and a rejected
    input yields the list of all issues, each tagged with the field it concerns. String lengths
    are JavaScript lengths (UTF-16 code units). */
module Schemas {
  import opened Wrappers
  import opened Strings
  import opened Constants
  import opened Domain
  import opened ProviderValidation
  import ProviderRepository

  /** zod's issue codes as the schemas raise them; `Custom` is a failed `.refine`. */
  datatype IssueCode = InvalidType | NotInteger | TooSmall | TooBig | InvalidString | Custom

  /** One zod issue: the field, the failed check and the schema's own message when it gives one. */
  datatype Issue = Issue(path: string, code: IssueCode, message: Option<string>)

  /** Some issue concerns the field `path`. */
  predicate Mentions(issues: seq<Issue>, path: string) {
    exists i :: 0 <= i < |issues| && issues[i].path == path
  }

  predicate AllAbout(issues: seq<Issue>, path: string) {
    forall i :: 0 <= i < |issues| ==> issues[i].path == path
  }

  lemma MentionsAppend(a: seq<Issue>, b: seq<Issue>, path: string)
    ensures Mentions(a + b, path) <==> Mentions(a, path) || Mentions(b, path)
  {
    if Mentions(a + b, path) {
      var i :| 0 <= i < |a + b| && (a + b)[i].path == path;
      if i >= |a| {
        assert b[i - |a|].path == path;
      }
    }
    if Mentions(a, path) {
      var i :| 0 <= i < |a| && a[i].path == path;
      assert (a + b)[i].path == path;
    }
    if Mentions(b, path) {
      var i :| 0 <= i < |b| && b[i].path == path;
      assert (a + b)[|a| + i].path == path;
    }
  }

  /** The issues of one field's checks mention that field exactly when there are any. */
  lemma MentionsOwnField(issues: seq<Issue>, field: string, path: string)
    requires AllAbout(issues, field)
    ensures Mentions(issues, path) <==> issues != [] && path == field
  {
    if issues != [] && path == field {
      assert issues[0].path == path;
    }
  }

  // ---------------------------------------------------------------------------------------
  // Field checks

  /** `[a-zA-Z0-9_-]` */
  predicate IsKeyNameChar(c: char) {
    'a' <= c <= 'z' || 'A' <= c <= 'Z' || '0' <= c <= '9' || c == '_' || c == '-'
  }

  /** `[a-zA-Z0-9_一-鿿-]`: the key-name characters and the CJK unified ideographs. */
  predicate IsUserNameChar(c: char) {
    IsKeyNameChar(c) || '\U{4E00}' <= c <= '\U{9FFF}'
  }

  /** `regex(/^[…]+$/)`: a non-empty string of allowed characters. */
  predicate Matches(s: string, ok: char -> bool) {
    s != [] && forall i :: 0 <= i < |s| ==> ok(s[i])
  }

  /** `z.string().min(lo, …).max(hi, …)` */
  function LengthIssues(path: string, s: string, lo: nat, hi: nat, short: Option<string>, long: Option<string>)
    : (r: seq<Issue>)
    ensures AllAbout(r, path)
    ensures r == [] <==> lo <= Utf16Length(s) <= hi
  {
    (if Utf16Length(s) < lo then [Issue(path, TooSmall, short)] else [])
    + (if Utf16Length(s) > hi then [Issue(path, TooBig, long)] else [])
  }

  /** `… .regex(/^[…]+$/, message)` after a length check. */
  function RegexIssues(path: string, s: string, ok: char -> bool, message: string): (r: seq<Issue>)
    ensures AllAbout(r, path)
    ensures r == [] <==> Matches(s, ok)
  {
    if Matches(s, ok) then [] else [Issue(path, InvalidString, Some(message))]
  }

  predicate IsInteger(x: JsNumber) {
    x.Finite? && x.v == x.v.Floor as real
  }

  /** `x` is a finite number in `[lo, hi]`, and an integer when `integer` holds. */
  predicate InRange(x: JsNumber, integer: bool, lo: real, hi: real) {
    x.Finite? && lo <= x.v <= hi && (integer ==> IsInteger(x))
  }

  /** `z.number()[.int(…)].min(lo, …).max(hi, …)`: NaN is the wrong type and stops the checks;
      an infinity is not an integer and lies beyond one of the bounds. */
  function NumberIssues(path: string, x: JsNumber, integer: bool, lo: real, hi: real,
                        intMsg: Option<string>, loMsg: Option<string>, hiMsg: Option<string>)
    : (r: seq<Issue>)
    ensures AllAbout(r, path)
    ensures r == [] <==> InRange(x, integer, lo, hi)
  {
    if x.NaN? then [Issue(path, InvalidType, None)]
    else
      (if integer && !IsInteger(x) then [Issue(path, NotInteger, intMsg)] else [])
      + (if x.NegInf? || (x.Finite? && x.v < lo) then [Issue(path, TooSmall, loMsg)] else [])
      + (if x.PosInf? || (x.Finite? && x.v > hi) then [Issue(path, TooBig, hiMsg)] else [])
  }

  /** The issues of an `.optional()` field: none when it is absent. */
  function OptionalIssues<T>(x: Option<T>, check: T -> seq<Issue>): (r: seq<Issue>)
    ensures x.None? ==> r == []
    ensures x.Some? ==> r == check(x.value)
  {
    if x.Some? then check(x.value) else []
  }

  /** The issues of a `.nullable().optional()` field: none when it is absent or null. */
  function NullableIssues<T>(x: Nullable<T>, check: T -> seq<Issue>): (r: seq<Issue>)
    ensures !x.Present? ==> r == []
    ensures x.Present? ==> r == check(x.value)
  {
    if x.Present? then check(x.value) else []
  }

  /** The integer an accepted integer input denotes. */
  function IntValue(x: JsNumber): (n: int)
    requires IsInteger(x)
    ensures n as real == x.v
  {
    x.v.Floor
  }

  // ---------------------------------------------------------------------------------------
  // Users

  const NameEmpty := "用户名不能为空"
  const NameTooLong := "用户名不能超过64个字符"
  const NameChars := "用户名只能包含字母、数字、下划线和中文"
  const NoteTooLong := "备注不能超过200个字符"
  const RpmNotInteger := "RPM必须是整数"
  /** The messages built from `USER_LIMITS`, with the constants written out. */
  const RpmTooLow := "RPM不能低于1"
  const RpmTooHigh := "RPM不能超过10000"
  const QuotaTooLow := "每日额度不能低于0.01美元"
  const QuotaTooHigh := "每日额度不能超过1000美元"

  datatype UserInput = UserInput(name: Option<string>, note: Option<string>, rpm: Option<JsNumber>, dailyQuota: Option<JsNumber>)
  datatype UserData = UserData(name: string, note: string, rpm: int, dailyQuota: real)

  predicate ValidUserName(name: string) {
    1 <= Utf16Length(name) <= 64 && Matches(name, IsUserNameChar)
  }

  predicate ValidNote(note: string) {
    Utf16Length(note) <= 200
  }

  function NameIssues(name: string): (r: seq<Issue>)
    ensures AllAbout(r, "name") && (r == [] <==> ValidUserName(name))
  {
    LengthIssues("name", name, 1, 64, Some(NameEmpty), Some(NameTooLong)) + RegexIssues("name", name, IsUserNameChar, NameChars)
  }

  function NoteIssues(note: string): (r: seq<Issue>)
    ensures AllAbout(r, "note") && (r == [] <==> ValidNote(note))
  {
    LengthIssues("note", note, 0, 200, None, Some(NoteTooLong))
  }

  function RpmIssues(rpm: JsNumber): (r: seq<Issue>)
    ensures AllAbout(r, "rpm") && (r == [] <==> InRange(rpm, true, UserRpmMin as real, UserRpmMax as real))
  {
    NumberIssues("rpm", rpm, true, UserRpmMin as real, UserRpmMax as real, Some(RpmNotInteger), Some(RpmTooLow), Some(RpmTooHigh))
  }

  function QuotaIssues(quota: JsNumber): (r: seq<Issue>)
    ensures AllAbout(r, "dailyQuota") && (r == [] <==> InRange(quota, false, DailyQuotaMin, DailyQuotaMax))
  {
    NumberIssues("dailyQuota", quota, false, DailyQuotaMin, DailyQuotaMax, None, Some(QuotaTooLow), Some(QuotaTooHigh))
  }

  /** The note, rpm and quota pass their checks wherever they are given. */
  predicate ValidUserFields(input: UserInput) {
    (input.note.Some? ==> ValidNote(input.note.value))
    && (input.rpm.Some? ==> InRange(input.rpm.value, true, UserRpmMin as real, UserRpmMax as real))
    && (input.dailyQuota.Some? ==> InRange(input.dailyQuota.value, false, DailyQuotaMin, DailyQuotaMax))
  }

  /** The issues of a required field that is missing. */
  function RequiredIssues<T>(path: string, x: Option<T>, check: T -> seq<Issue>): (r: seq<Issue>)
    ensures x.None? ==> r == [Issue(path, InvalidType, Some("Required"))]
    ensures x.Some? ==> r == check(x.value)
  {
    if x.Some? then check(x.value) else [Issue(path, InvalidType, Some("Required"))]
  }

  function CreateUserIssues(input: UserInput): seq<Issue> {
    RequiredIssues("name", input.name, NameIssues) + OptionalIssues(input.note, NoteIssues)
    + OptionalIssues(input.rpm, RpmIssues) + OptionalIssues(input.dailyQuota, QuotaIssues)
  }

  /** `CreateUserSchema.parse`: the note defaults to "", the rpm to 100 and the quota to 100. */
  function ParseCreateUser(input: UserInput): (r: Result<UserData, seq<Issue>>)
    ensures r.Ok? <==> input.name.Some? && ValidUserName(input.name.value) && ValidUserFields(input)
    ensures r.Ok? ==> r.value.name == input.name.value && r.value.note == input.note.GetOr("")
    ensures r.Ok? ==> UserRpmMin <= r.value.rpm <= UserRpmMax
                      && r.value.rpm as real == (if input.rpm.Some? then input.rpm.value.v else DefaultUserRpm as real)
    ensures r.Ok? ==> DailyQuotaMin <= r.value.dailyQuota <= DailyQuotaMax
                      && r.value.dailyQuota == (if input.dailyQuota.Some? then input.dailyQuota.value.v else DefaultDailyQuota)
    ensures r.Err? ==> r.error == CreateUserIssues(input) && r.error != []
  {
    var issues := CreateUserIssues(input);
    if issues != [] then Err(issues)
    else
      Ok(UserData(input.name.value, input.note.GetOr(""),
                  if input.rpm.Some? then IntValue(input.rpm.value) else DefaultUserRpm,
                  if input.dailyQuota.Some? then input.dailyQuota.value.v else DefaultDailyQuota))
  }

  /** A rejected user names exactly the fields that fail their checks. */
  lemma {:induction false} CreateUserIssuesNameFailingFields(input: UserInput)
    ensures Mentions(CreateUserIssues(input), "name") <==> input.name.None? || !ValidUserName(input.name.value)
    ensures Mentions(CreateUserIssues(input), "rpm")
            <==> input.rpm.Some? && !InRange(input.rpm.value, true, UserRpmMin as real, UserRpmMax as real)
    ensures Mentions(CreateUserIssues(input), "dailyQuota")
            <==> input.dailyQuota.Some? && !InRange(input.dailyQuota.value, false, DailyQuotaMin, DailyQuotaMax)
  {
    var a := RequiredIssues("name", input.name, NameIssues);
    var b := OptionalIssues(input.note, NoteIssues);
    var c := OptionalIssues(input.rpm, RpmIssues);
    var d := OptionalIssues(input.dailyQuota, QuotaIssues);
    assert AllAbout(a, "name") && AllAbout(b, "note") && AllAbout(c, "rpm") && AllAbout(d, "dailyQuota");
    assert a == [] <==> input.name.Some? && ValidUserName(input.name.value);
    forall path | path in ["name", "rpm", "dailyQuota"]
      ensures Mentions(CreateUserIssues(input), path)
              <==> (path == "name" && a != []) || (path == "rpm" && c != []) || (path == "dailyQuota" && d != [])
    {
      MentionsAppend(a + b + c, d, path);
      MentionsAppend(a + b, c, path);
      MentionsAppend(a, b, path);
      MentionsOwnField(a, "name", path);
      MentionsOwnField(b, "note", path);
      MentionsOwnField(c, "rpm", path);
      MentionsOwnField(d, "dailyQuota", path);
    }
  }

  /** The output of `UpdateUserSchema.parse`: every field optional and without a default. */
  datatype UserPatch = UserPatch(name: Option<string>, note: Option<string>, rpm: Option<int>, dailyQuota: Option<real>)

  function UpdateUserIssues(input: UserInput): seq<Issue> {
    OptionalIssues(input.name, NameIssues) + OptionalIssues(input.note, NoteIssues)
    + OptionalIssues(input.rpm, RpmIssues) + OptionalIssues(input.dailyQuota, QuotaIssues)
  }

  /** `UpdateUserSchema.parse`: the same checks, each on a field that may be missing. */
  function ParseUpdateUser(input: UserInput): (r: Result<UserPatch, seq<Issue>>)
    ensures r.Ok? <==> (input.name.Some? ==> ValidUserName(input.name.value)) && ValidUserFields(input)
    ensures r.Ok? ==> r.value.name == input.name && r.value.note == input.note
    ensures r.Ok? ==> (r.value.rpm.Some? <==> input.rpm.Some?) && (r.value.dailyQuota.Some? <==> input.dailyQuota.Some?)
    ensures r.Ok? && r.value.rpm.Some? ==> UserRpmMin <= r.value.rpm.value <= UserRpmMax && r.value.rpm.value as real == input.rpm.value.v
    ensures r.Ok? && r.value.dailyQuota.Some? ==> r.value.dailyQuota.value == input.dailyQuota.value.v
    ensures r.Err? ==> r.error == UpdateUserIssues(input) && r.error != []
  {
    var issues := UpdateUserIssues(input);
    if issues != [] then Err(issues)
    else
      Ok(UserPatch(input.name, input.note,
                   if input.rpm.Some? then Some(IntValue(input.rpm.value)) else None,
                   if input.dailyQuota.Some? then Some(input.dailyQuota.value.v) else None))
  }

  /** Whatever the create schema accepts, the update schema accepts too, with the same values
      wherever the input gives one. */
  lemma CreateAcceptedIsUpdateAccepted(input: UserInput)
    requires ParseCreateUser(input).Ok?
    ensures ParseUpdateUser(input).Ok?
    ensures ParseUpdateUser(input).value.name == Some(ParseCreateUser(input).value.name)
  {
  }

  // ---------------------------------------------------------------------------------------
  // Keys

  const KeyNameEmpty := "密钥名称不能为空"
  const KeyNameTooLong := "密钥名称不能超过64个字符"
  const KeyNameChars := "密钥名称只能包含字母、数字、下划线和连字符"

  datatype KeyFormInput = KeyFormInput(name: Option<string>, expiresAt: Option<string>)
  datatype KeyFormData = KeyFormData(name: string, expiresAt: Option<string>)

  predicate ValidKeyName(name: string) {
    1 <= Utf16Length(name) <= 64 && Matches(name, IsKeyNameChar)
  }

  function KeyNameIssues(name: string): (r: seq<Issue>)
    ensures AllAbout(r, "name") && (r == [] <==> ValidKeyName(name))
  {
    LengthIssues("name", name, 1, 64, Some(KeyNameEmpty), Some(KeyNameTooLong)) + RegexIssues("name", name, IsKeyNameChar, KeyNameChars)
  }

  /** `KeyFormSchema.parse`: a missing or empty expiry becomes `undefined`. */
  function ParseKeyForm(input: KeyFormInput): (r: Result<KeyFormData, seq<Issue>>)
    ensures r.Ok? <==> input.name.Some? && ValidKeyName(input.name.value)
    ensures r.Ok? ==> r.value.name == input.name.value
    ensures r.Ok? ==> (r.value.expiresAt.None? <==> input.expiresAt.None? || input.expiresAt.value == [])
    ensures r.Ok? && r.value.expiresAt.Some? ==> input.expiresAt == r.value.expiresAt
    ensures r.Err? ==> r.error != [] && AllAbout(r.error, "name")
  {
    var issues := RequiredIssues("name", input.name, KeyNameIssues);
    if issues != [] then Err(issues)
    else
      var expires := input.expiresAt.GetOr("");
      Ok(KeyFormData(input.name.value, if expires == [] then None else Some(expires)))
  }

  /** Every valid key name is a valid user name. */
  lemma KeyNamesAreUserNames(name: string)
    requires ValidKeyName(name)
    ensures ValidUserName(name)
  {
  }

  // ---------------------------------------------------------------------------------------
  // Providers

  const ProviderNameEmpty := "服务商名称不能为空"
  const ProviderNameTooLong := "服务商名称不能超过64个字符"
  const UrlInvalid := "请输入有效的URL地址"
  const UrlTooLong := "URL长度不能超过255个字符"
  const ApiKeyEmpty := "API密钥不能为空"
  const ApiKeyTooLong := "API密钥长度不能超过255个字符"
  const EmptyUpdate := "更新内容为空"

  datatype ProviderInput = ProviderInput(
    name: Option<string>, url: Option<string>, key: Option<string>,
    isEnabled: Option<bool>, weight: Option<JsNumber>,
    tpm: Nullable<JsNumber>, rpm: Nullable<JsNumber>, rpd: Nullable<JsNumber>, cc: Nullable<JsNumber>)

  /** The output of `CreateProviderSchema.parse`; an absent limit stays absent (`undefined`). */
  datatype ProviderData = ProviderData(
    name: string, url: string, key: string, isEnabled: bool, weight: int,
    tpm: Nullable<int>, rpm: Nullable<int>, rpd: Nullable<int>, cc: Nullable<int>)

  /** `z.string().url(…).max(255, …)`; `isUrl` says whether `new URL(s)` succeeds. */
  function UrlIssues(path: string, s: string, isUrl: string -> bool, invalid: Option<string>, long: Option<string>)
    : (r: seq<Issue>)
    ensures AllAbout(r, path) && (r == [] <==> isUrl(s) && Utf16Length(s) <= 255)
  {
    (if isUrl(s) then [] else [Issue(path, InvalidString, invalid)]) + LengthIssues(path, s, 0, 255, None, long)
  }

  function WeightIssues(w: JsNumber): (r: seq<Issue>)
    ensures AllAbout(r, "weight") && (r == [] <==> InRange(w, true, WeightMin as real, WeightMax as real))
  {
    NumberIssues("weight", w, true, WeightMin as real, WeightMax as real, None, None, None)
  }

  /** An integer limit in `[lo, hi]` without custom messages. */
  function LimitIssues(path: string, lo: int, hi: int): JsNumber -> seq<Issue> {
    x => NumberIssues(path, x, true, lo as real, hi as real, None, None, None)
  }

  /** A limit is acceptable when it is absent, null, or an integer in its range. */
  predicate ValidLimit(x: Nullable<JsNumber>, lo: int, hi: int) {
    x.Present? ==> InRange(x.value, true, lo as real, hi as real)
  }

  function LimitValue(x: Nullable<JsNumber>, lo: int, hi: int): (r: Nullable<int>)
    requires ValidLimit(x, lo, hi)
    ensures r.Absent? <==> x.Absent?
    ensures r.Null? <==> x.Null?
    ensures r.Present? ==> lo <= r.value <= hi && r.value as real == x.value.v
  {
    match x
    case Absent => Absent
    case Null => Null
    case Present(v) => Present(IntValue(v))
  }

  predicate ValidLimits(input: ProviderInput) {
    ValidLimit(input.tpm, TpmMin, TpmMax) && ValidLimit(input.rpm, ProviderRpmMin, ProviderRpmMax)
    && ValidLimit(input.rpd, RpdMin, RpdMax) && ValidLimit(input.cc, CcMin, CcMax)
  }

  function LimitsIssues(input: ProviderInput): (r: seq<Issue>)
    ensures r == [] <==> ValidLimits(input)
  {
    NullableIssues(input.tpm, LimitIssues("tpm", TpmMin, TpmMax))
    + NullableIssues(input.rpm, LimitIssues("rpm", ProviderRpmMin, ProviderRpmMax))
    + NullableIssues(input.rpd, LimitIssues("rpd", RpdMin, RpdMax))
    + NullableIssues(input.cc, LimitIssues("cc", CcMin, CcMax))
  }

  /** Name, url and key are present and within bounds; weight and limits pass their checks. */
  predicate ValidNewProvider(input: ProviderInput, isUrl: string -> bool) {
    && input.name.Some? && 1 <= Utf16Length(input.name.value) <= 64
    && input.url.Some? && isUrl(input.url.value) && Utf16Length(input.url.value) <= 255
    && input.key.Some? && 1 <= Utf16Length(input.key.value) <= 255
    && (input.weight.Some? ==> InRange(input.weight.value, true, WeightMin as real, WeightMax as real))
    && ValidLimits(input)
  }

  function CreateProviderIssues(input: ProviderInput, isUrl: string -> bool): seq<Issue> {
    RequiredIssues("name", input.name, s => LengthIssues("name", s, 1, 64, Some(ProviderNameEmpty), Some(ProviderNameTooLong)))
    + RequiredIssues("url", input.url, s => UrlIssues("url", s, isUrl, Some(UrlInvalid), Some(UrlTooLong)))
    + RequiredIssues("key", input.key, s => LengthIssues("key", s, 1, 255, Some(ApiKeyEmpty), Some(ApiKeyTooLong)))
    + OptionalIssues(input.weight, WeightIssues)
    + LimitsIssues(input)
  }

  /** `CreateProviderSchema.parse`: name, url and key are required; the provider is disabled and
      weighs 1 unless the input says otherwise. */
  function ParseCreateProvider(input: ProviderInput, isUrl: string -> bool): (r: Result<ProviderData, seq<Issue>>)
    ensures r.Ok? <==> ValidNewProvider(input, isUrl)
    ensures r.Ok? ==> r.value.name == input.name.value && r.value.url == input.url.value && r.value.key == input.key.value
    ensures r.Ok? ==> r.value.isEnabled == input.isEnabled.GetOr(DefaultProviderEnabled)
    ensures r.Ok? ==> WeightMin <= r.value.weight <= WeightMax
                      && r.value.weight as real == (if input.weight.Some? then input.weight.value.v else DefaultWeight as real)
    ensures r.Ok? ==> r.value.tpm == LimitValue(input.tpm, TpmMin, TpmMax)
                      && r.value.rpm == LimitValue(input.rpm, ProviderRpmMin, ProviderRpmMax)
                      && r.value.rpd == LimitValue(input.rpd, RpdMin, RpdMax)
                      && r.value.cc == LimitValue(input.cc, CcMin, CcMax)
    ensures r.Err? ==> r.error == CreateProviderIssues(input, isUrl) && r.error != []
  {
    var issues := CreateProviderIssues(input, isUrl);
    if issues != [] then Err(issues)
    else
      Ok(ProviderData(input.name.value, input.url.value, input.key.value,
                      input.isEnabled.GetOr(DefaultProviderEnabled),
                      if input.weight.Some? then IntValue(input.weight.value) else DefaultWeight,
                      LimitValue(input.tpm, TpmMin, TpmMax), LimitValue(input.rpm, ProviderRpmMin, ProviderRpmMax),
                      LimitValue(input.rpd, RpdMin, RpdMax), LimitValue(input.cc, CcMin, CcMax)))
  }

  function UpdateProviderIssues(input: ProviderInput, isUrl: string -> bool): seq<Issue> {
    OptionalIssues(input.name, s => LengthIssues("name", s, 1, 64, None, None))
    + OptionalIssues(input.url, s => UrlIssues("url", s, isUrl, None, None))
    + OptionalIssues(input.key, s => LengthIssues("key", s, 1, 255, None, None))
    + OptionalIssues(input.weight, WeightIssues)
    + LimitsIssues(input)
  }

  function ToField<T>(x: Option<T>): (f: Field<T>)
    ensures f.Given? <==> x.Some?
    ensures f.Given? ==> f.value == x.value
  {
    if x.Some? then Given(x.value) else Omitted
  }

  function LimitField(x: Nullable<JsNumber>, lo: int, hi: int): (f: Field<Option<int>>)
    requires ValidLimit(x, lo, hi)
    ensures f.Omitted? <==> x.Absent?
    ensures x.Null? ==> f == Given(None)
    ensures x.Present? ==> f.Given? && f.value.Some? && lo <= f.value.value <= hi && f.value.value as real == x.value.v
  {
    match x
    case Absent => Omitted
    case Null => Given(None)
    case Present(v) => Given(Some(IntValue(v)))
  }

  /** The input holds no field at all (`Object.keys(obj).length === 0`). */
  predicate NoFields(input: ProviderInput) {
    input.name.None? && input.url.None? && input.key.None? && input.isEnabled.None? && input.weight.None?
    && input.tpm.Absent? && input.rpm.Absent? && input.rpd.Absent? && input.cc.Absent?
  }

  /** `UpdateProviderSchema.parse`: every field optional with the create bounds, and the object
      must not be empty. */
  function ParseUpdateProvider(input: ProviderInput, isUrl: string -> bool)
    : (r: Result<ProviderRepository.UpdateProviderData, seq<Issue>>)
    ensures r.Ok? <==> UpdateProviderIssues(input, isUrl) == [] && !NoFields(input)
    ensures r.Ok? ==> !r.value.IsEmpty()
    ensures r.Ok? ==> r.value.name == ToField(input.name) && r.value.url == ToField(input.url)
                      && r.value.key == ToField(input.key) && r.value.isEnabled == ToField(input.isEnabled)
    ensures r.Ok? ==> (r.value.weight.Given? <==> input.weight.Some?)
    ensures r.Ok? && r.value.weight.Given? ==> WeightMin <= r.value.weight.value <= WeightMax
                                               && r.value.weight.value as real == input.weight.value.v
    ensures r.Ok? ==> r.value.tpm == LimitField(input.tpm, TpmMin, TpmMax)
                      && r.value.rpm == LimitField(input.rpm, ProviderRpmMin, ProviderRpmMax)
                      && r.value.rpd == LimitField(input.rpd, RpdMin, RpdMax)
                      && r.value.cc == LimitField(input.cc, CcMin, CcMax)
    ensures NoFields(input) ==> r == Err([Issue("", Custom, Some(EmptyUpdate))])
  {
    var issues := UpdateProviderIssues(input, isUrl);
    if issues != [] then Err(issues)
    else if NoFields(input) then Err([Issue("", Custom, Some(EmptyUpdate))])
    else
      Ok(ProviderRepository.UpdateProviderData(
        ToField(input.name), ToField(input.url), ToField(input.key), ToField(input.isEnabled),
        if input.weight.Some? then Given(IntValue(input.weight.value)) else Omitted,
        LimitField(input.tpm, TpmMin, TpmMax), LimitField(input.rpm, ProviderRpmMin, ProviderRpmMax),
        LimitField(input.rpd, RpdMin, RpdMax), LimitField(input.cc, CcMin, CcMax)))
  }

  /** Whatever the create schema accepts, the update schema accepts too. */
  lemma CreateProviderAcceptedIsUpdateAccepted(input: ProviderInput, isUrl: string -> bool)
    requires ParseCreateProvider(input, isUrl).Ok?
    ensures ParseUpdateProvider(input, isUrl).Ok?
  {
    assert input.name.Some?;
    assert UpdateProviderIssues(input, isUrl) == [];
  }
}
