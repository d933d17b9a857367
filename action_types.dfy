/** src/actions/types.ts: the discriminated result every server action returns, and what the
    actions share: the session test and the generated key string. */
module ActionTypes {
  import opened Wrappers
  import opened Domain
  import opened Auth
  import opened Strings

  /** `ActionResult<T>`: `{ok: true, data}` or `{ok: false, error}`. */
  datatype ActionResult<T> = Success(data: T) | Failure(error: string)

  const NotLoggedIn := "未登录"
  const NoPermission := "无权限执行此操作"

  /** `session && session.user.role === 'admin'` */
  predicate IsAdmin(session: Option<AuthSession>) {
    session.Some? && session.value.user.role == AdminRole
  }

  /** One character of `Buffer.toString('hex')`. */
  predicate IsHexDigit(c: char) {
    '0' <= c <= '9' || 'a' <= c <= 'f'
  }

  /** What `randomBytes(16).toString('hex')` yields: 32 lower-case hex digits. */
  predicate IsRandomHex(hex: string) {
    |hex| == 32 && forall i :: 0 <= i < |hex| ==> IsHexDigit(hex[i])
  }

  /** `'sk-' + randomBytes(16).toString('hex')` for the drawn hex digits. */
  function NewKeyString(hex: string): (k: string)
    requires IsRandomHex(hex)
    ensures |k| == 35 && k[..3] == "sk-" && k[3..] == hex
  {
    "sk-" + hex
  }

  /** `iso.split('T')[0]`: the calendar date of an ISO timestamp. */
  function DatePart(iso: string): (d: string)
    ensures d <= iso && 'T' !in d
    ensures |d| < |iso| ==> iso[|d|] == 'T'
  {
    SplitHead(iso, 'T');
    Split(iso, 'T')[0]
  }

  /** The first piece of a split is the longest prefix free of the separator. */
  lemma {:induction false} SplitHead(s: string, sep: char)
    ensures Split(s, sep)[0] <= s && sep !in Split(s, sep)[0]
    ensures |Split(s, sep)[0]| < |s| ==> s[|Split(s, sep)[0]|] == sep
  {
    if s != [] && s[0] != sep {
      SplitHead(s[1..], sep);
      assert s == [s[0]] + s[1..];
    }
  }

  /** The date of `date + "T" + time` is `date`. */
  lemma DateOfTimestamp(date: string, time: string)
    requires 'T' !in date
    ensures DatePart(date + "T" + time) == date
  {
    SplitAtFirstSeparator(date, 'T', time);
  }
}
