/**
 * `gen_external_uid`: the synthetic account id of a social account, shaped
 * after the provider's real identifiers. The random number, the uuid, the
 * letters drawn and the fake user name are parameters; `slugify` is a
 * function parameter because its text rules belong to another library.
 */
module ExternalUid {
  import opened Wrappers
  import Decimal

  const LinkedinPrefix: string := "urn:li:person:"
  const Alphabet: string := "abcdefghijklmnopqrstuvwxyz"

  /** A position in `Alphabet`, as `random.choices` picks them. */
  type LetterIndex = i: int | 0 <= i < 26

  /**
   * What the random sources returned for one call: `random.randint(...)`,
   * `uuid.uuid4().hex`, the letters of `random.choices(..., k=8)` and
   * `fake.user_name()`. Each branch reads only the one it needs.
   */
  datatype UidDraw = UidDraw(number: int, uuidHex: string, letters: seq<LetterIndex>, userName: string)

  /** `s[:k]` */
  function Truncate(s: string, k: nat): (t: string)
    ensures |t| <= k && t <= s
    ensures |s| <= k ==> t == s
  {
    if |s| <= k then s else s[..k]
  }

  function Letters(picks: seq<LetterIndex>): string {
    seq(|picks|, i requires 0 <= i < |picks| => Alphabet[picks[i]])
  }

  predicate IsLowerHex(s: string) {
    forall i :: 0 <= i < |s| ==> '0' <= s[i] <= '9' || 'a' <= s[i] <= 'f'
  }

  predicate IsLowerAscii(s: string) {
    forall i :: 0 <= i < |s| ==> 'a' <= s[i] <= 'z'
  }

  /** The provider names that get a slug of the first 15 characters of a user name. */
  predicate ShortSlugProvider(p: string) {
    p == "instagram" || p == "X" || p == "tiktok"
  }

  function GenExternalUid(p: string, d: UidDraw, slugify: string -> string): string {
    if p == "facebook" then Decimal.IntToString(d.number)
    else if ShortSlugProvider(p) then slugify(Truncate(d.userName, 15))
    else if p == "linkedin" then LinkedinPrefix + Truncate(d.uuidHex, 22)
    else if p == "ticketmaster" then Decimal.IntToString(d.number)
    else if p == "snapchat" then Letters(d.letters)
    else slugify(d.userName)
  }

  /** With `randint(10**11, 10**12-1)`, a facebook uid is 12 digits and reads back as the number drawn. */
  lemma FacebookUid(d: UidDraw, slugify: string -> string)
    requires Decimal.Pow10(11) <= d.number <= Decimal.Pow10(12) - 1
    ensures var uid := GenExternalUid("facebook", d, slugify);
      |uid| == 12 && Decimal.AllDigits(uid) && uid[0] != '0' && Decimal.ParseNat(uid) == Some(d.number)
  {
    Decimal.RenderingLength(d.number, 12);
    Decimal.ParseRendering(d.number);
  }

  /** With `randint(10**9, 10**10-1)`, a ticketmaster uid is 10 digits and reads back as the number drawn. */
  lemma TicketmasterUid(d: UidDraw, slugify: string -> string)
    requires Decimal.Pow10(9) <= d.number <= Decimal.Pow10(10) - 1
    ensures var uid := GenExternalUid("ticketmaster", d, slugify);
      |uid| == 10 && Decimal.AllDigits(uid) && uid[0] != '0' && Decimal.ParseNat(uid) == Some(d.number)
  {
    Decimal.RenderingLength(d.number, 10);
    Decimal.ParseRendering(d.number);
  }

  /** A linkedin uid is the fixed prefix followed by the first 22 characters of the uuid's hex form. */
  lemma LinkedinUid(d: UidDraw, slugify: string -> string)
    requires |d.uuidHex| >= 22 && IsLowerHex(d.uuidHex)
    ensures var uid := GenExternalUid("linkedin", d, slugify);
      |uid| == |LinkedinPrefix| + 22 && uid[..|LinkedinPrefix|] == LinkedinPrefix &&
      uid[|LinkedinPrefix|..] == d.uuidHex[..22] && IsLowerHex(uid[|LinkedinPrefix|..])
  {
  }

  /** A snapchat uid of eight picks is eight lower-case ASCII letters. */
  lemma SnapchatUid(d: UidDraw, slugify: string -> string)
    requires |d.letters| == 8
    ensures var uid := GenExternalUid("snapchat", d, slugify);
      |uid| == 8 && IsLowerAscii(uid)
  {
  }

  /**
   * For instagram, X and tiktok only the first 15 characters of the user
   * name matter. With `slugify` foreign, this lemma only documents the
   * dispatch: which names reach the truncating slug branch.
   */
  lemma ShortSlugUid(p: string, d: UidDraw, e: UidDraw, slugify: string -> string)
    requires ShortSlugProvider(p)
    requires Truncate(d.userName, 15) == Truncate(e.userName, 15)
    ensures GenExternalUid(p, d, slugify) == GenExternalUid(p, e, slugify)
    ensures GenExternalUid(p, d, slugify) == slugify(Truncate(d.userName, 15))
  {
  }

  /**
   * Any other provider name, lower-case "x" included, gets a slug of the
   * whole user name. Like the lemma above, it only documents the dispatch:
   * which names fall through to the default branch.
   */
  lemma OtherProviderUid(p: string, d: UidDraw, slugify: string -> string)
    requires p !in ["facebook", "instagram", "X", "linkedin", "ticketmaster", "snapchat", "tiktok"]
    ensures GenExternalUid(p, d, slugify) == slugify(d.userName)
  {
  }
}
