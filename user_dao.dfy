/**
 * The user store (crates/services/src/dao/user.rs): password sign-up, the OAuth
 * find-link-or-create path with its username derivation and retries, the batch display-name
 * lookup and the profile update. The collection is a sequence in insertion order; the unique
 * indexes on `email` and `username` (crates/db/src/indexes.rs) reject an insert that repeats
 * either, deleted users included. Times are milliseconds.
 */
module UserDao {
  import opened Wrappers
  import opened Text
  import opened ApiErrors
  import opened Seqs

  datatype OAuthLink = OAuthLink(provider: string, providerId: string)

  datatype User = User(
    id: string,
    email: string,
    username: string,
    displayName: string,
    avatar: Option<string>,
    bio: Option<string>,
    passwordHash: Option<string>,
    locale: string,
    timezone: string,
    isVerified: bool,
    oauthProviders: seq<OAuthLink>,
    createdAt: int,
    updatedAt: int,
    deleted: bool)

  const DEFAULT_LOCALE := "en-US"
  const DEFAULT_TIMEZONE := "UTC"

  /** The user `create` inserts: a password account, unverified, with no provider linked. */
  function NewUser(id: string, email: string, username: string, displayName: string, passwordHash: string, nowMs: int): User
  {
    User(id, email, username, displayName, None, None, Some(passwordHash), DEFAULT_LOCALE, DEFAULT_TIMEZONE,
         false, [], nowMs, nowMs, false)
  }

  /** The user the OAuth path inserts: verified, without a password, linked to the one provider. */
  function NewOAuthUser(id: string, email: string, username: string, displayName: string, avatar: Option<string>, link: OAuthLink, nowMs: int): User
  {
    User(id, email, username, displayName, avatar, None, None, DEFAULT_LOCALE, DEFAULT_TIMEZONE,
         true, [link], nowMs, nowMs, false)
  }

  /**
   * The two kinds of account differ exactly in how they sign in: a password account has its hash
   * and no provider and is unverified; an OAuth account has no hash, is verified and has exactly
   * the provider it came from. Both start live with the default locale and time zone.
   */
  lemma NewAccountsDiffer(id: string, email: string, username: string, displayName: string, hash: string,
                          avatar: Option<string>, link: OAuthLink, nowMs: int)
    ensures var p := NewUser(id, email, username, displayName, hash, nowMs);
      p.passwordHash == Some(hash) && !p.isVerified && p.oauthProviders == [] && !p.deleted
      && p.locale == "en-US" && p.timezone == "UTC" && p.avatar.None?
    ensures var o := NewOAuthUser(id, email, username, displayName, avatar, link, nowMs);
      o.passwordHash.None? && o.isVerified && |o.oauthProviders| == 1 && o.oauthProviders[0] == link && !o.deleted
      && o.locale == "en-US" && o.timezone == "UTC" && o.avatar == avatar
  {
  }

  // ---------------------------------------------------------------- usernames

  predicate UsernameChar(c: char) { IsAlphanumeric(c) || c == '_' }

  /** The base username: the display name lower-cased, spaces made underscores, then only alphanumerics and '_' kept. */
  function BaseUsername(displayName: string): string
  {
    FilterChars(ReplaceChar(ToLower(displayName), ' ', '_'), (c: char) => UsernameChar(c))
  }

  /** What one character of the display name contributes: itself lower-cased, '_' for a space, or nothing. */
  function CharContribution(c: char): string
  {
    if c == ' ' then "_"
    else if UsernameChar(c) then [LowerChar(c)]
    else []
  }

  /** The same derivation character by character, independent of the three-pass pipeline. */
  function UsernameOf(displayName: string): string
  {
    if displayName == [] then [] else CharContribution(displayName[0]) + UsernameOf(displayName[1..])
  }

  /** The pipeline agrees with the character-by-character reading. */
  lemma {:induction false} BaseUsernameByChar(displayName: string)
    ensures BaseUsername(displayName) == UsernameOf(displayName)
  {
    if displayName != [] {
      var c := displayName[0];
      var rest := displayName[1..];
      var keep := (c: char) => UsernameChar(c);
      assert ToLower(displayName) == [LowerChar(c)] + ToLower(rest);
      ReplaceCharAppend([LowerChar(c)], ToLower(rest), ' ', '_');
      var head := ReplaceChar([LowerChar(c)], ' ', '_');
      assert head == [if LowerChar(c) == ' ' then '_' else LowerChar(c)];
      FilterCharsAppend(head, ReplaceChar(ToLower(rest), ' ', '_'), keep);
      assert FilterChars(head, keep) == CharContribution(c) by {
        assert head[1..] == [];
      }
      BaseUsernameByChar(rest);
    }
  }

  /** A base username holds only lower-case alphanumerics and underscores, one per kept character. */
  lemma BaseUsernameShape(displayName: string)
    ensures var b := BaseUsername(displayName);
      |b| <= |displayName| && forall i :: 0 <= i < |b| ==> UsernameChar(b[i]) && !IsUpper(b[i]) && b[i] != ' '
  {
    var b := BaseUsername(displayName);
    var lowered := ReplaceChar(ToLower(displayName), ' ', '_');
    ReplaceCharAt(ToLower(displayName), ' ', '_');
    FilterCharsOfChars(lowered, (c: char) => UsernameChar(c));
    forall i | 0 <= i < |b|
      ensures !IsUpper(b[i])
    {
      assert b[i] in lowered;
    }
  }

  // ---------------------------------------------------------------- object-id suffixes

  /**
   * A database object id as its three parts: a 4-byte creation time in seconds, a 5-byte
   * per-process random value and a 3-byte counter that `ObjectId::new` increments by one.
   */
  datatype ObjectId = ObjectId(timestamp: nat, process: nat, counter: nat)

  const COUNTER_MODULUS: nat := 0x100_0000

  predicate WellFormed(o: ObjectId)
  {
    o.timestamp < 0x1_0000_0000 && o.process < 0x100_0000_0000 && o.counter < COUNTER_MODULUS
  }

  function HexDigit(d: nat): char
    requires d < 16
  {
    if d < 10 then ('0' as int + d) as char else ('a' as int + d - 10) as char
  }

  /** The `width` low hexadecimal digits of `n`, most significant first. */
  function HexDigits(n: nat, width: nat): (r: string)
    ensures |r| == width
  {
    if width == 0 then [] else HexDigits(n / 16, width - 1) + [HexDigit(n % 16)]
  }

  function Pow16(w: nat): (r: nat)
    ensures r >= 1
  {
    if w == 0 then 1 else 16 * Pow16(w - 1)
  }

  /** Different numbers below 16^width have different digits. */
  lemma {:induction false} HexDigitsInjective(n: nat, m: nat, width: nat)
    requires n < Pow16(width) && m < Pow16(width)
    requires HexDigits(n, width) == HexDigits(m, width)
    ensures n == m
  {
    if width > 0 {
      var a := HexDigits(n, width);
      var b := HexDigits(m, width);
      assert a[width - 1] == b[width - 1];
      assert n % 16 == m % 16;
      assert a[..width - 1] == HexDigits(n / 16, width - 1);
      assert b[..width - 1] == HexDigits(m / 16, width - 1);
      HexDigitsInjective(n / 16, m / 16, width - 1);
    }
  }

  /** `to_hex`: 24 lower-case hex digits, time first, counter last. */
  function Hex(o: ObjectId): (r: string)
    ensures |r| == 24
  {
    HexDigits(o.timestamp, 8) + HexDigits(o.process, 10) + HexDigits(o.counter, 6)
  }

  /** The suffix as written: the first six hex digits of a fresh object id. */
  function SuffixAsWritten(o: ObjectId): string
  {
    Hex(o)[..6]
  }

  /** The first six digits are the timestamp without its low byte: they change once every 256 seconds. */
  lemma SuffixAsWrittenIsTime(o: ObjectId)
    ensures SuffixAsWritten(o) == HexDigits(o.timestamp / 256, 6)
  {
    var t := o.timestamp;
    assert t / 16 / 16 == t / 256;
    assert HexDigits(t, 8) == HexDigits(t / 256, 6) + [HexDigit(t / 16 % 16)] + [HexDigit(t % 16)];
    assert Hex(o)[..6] == HexDigits(t, 8)[..6];
  }

  /** Ids made within one 256-second window give the same suffix as written, whatever their counters. */
  lemma SameWindowSameSuffix(o1: ObjectId, o2: ObjectId)
    requires o1.timestamp / 256 == o2.timestamp / 256
    ensures SuffixAsWritten(o1) == SuffixAsWritten(o2)
  {
    SuffixAsWrittenIsTime(o1);
    SuffixAsWrittenIsTime(o2);
  }

  /** The suffix the retries evidently need: the last six hex digits, the counter. */
  function Suffix(o: ObjectId): string
  {
    Hex(o)[18..]
  }

  lemma SuffixIsCounter(o: ObjectId)
    ensures Suffix(o) == HexDigits(o.counter, 6)
  {
    assert Hex(o)[18..] == HexDigits(o.counter, 6);
  }

  /** Ids that `ObjectId::new` hands out one after another: each counter follows the previous one. */
  predicate Successive(oids: seq<ObjectId>)
  {
    (forall i :: 0 <= i < |oids| ==> WellFormed(oids[i]))
    && forall i :: 0 < i < |oids| ==> oids[i].counter == (oids[i - 1].counter + 1) % COUNTER_MODULUS
  }

  lemma {:induction false} SuccessiveCounter(oids: seq<ObjectId>, i: nat)
    requires Successive(oids) && i < |oids|
    ensures oids[i].counter == (oids[0].counter + i) % COUNTER_MODULUS
  {
    if i > 0 {
      SuccessiveCounter(oids, i - 1);
    }
  }

  /** The username tried with a suffix. */
  function Candidate(base: string, suffix: string): string
  {
    base + "_" + suffix
  }

  /** The usernames the retries try, one per object id. */
  function Candidates(base: string, oids: seq<ObjectId>): seq<string>
  {
    seq(|oids|, i requires 0 <= i < |oids| => Candidate(base, Suffix(oids[i])))
  }

  /** As written, every try within one 256-second window repeats the first username. */
  lemma AsWrittenRetriesRepeat(base: string, oids: seq<ObjectId>)
    requires forall i :: 0 <= i < |oids| ==> oids[i].timestamp / 256 == oids[0].timestamp / 256
    ensures forall i :: 0 <= i < |oids| ==> Candidate(base, SuffixAsWritten(oids[i])) == Candidate(base, SuffixAsWritten(oids[0]))
  {
    forall i | 0 <= i < |oids|
      ensures SuffixAsWritten(oids[i]) == SuffixAsWritten(oids[0])
    {
      SameWindowSameSuffix(oids[i], oids[0]);
    }
  }

  /** Fewer than 2^24 successive ids have pairwise different counters. */
  lemma CountersDistinct(oids: seq<ObjectId>, i: nat, j: nat)
    requires Successive(oids) && |oids| <= COUNTER_MODULUS && i < j < |oids|
    ensures oids[i].counter != oids[j].counter
  {
    SuccessiveCounter(oids, i);
    SuccessiveCounter(oids, j);
    var c0 := oids[0].counter;
    if c0 + j < COUNTER_MODULUS {
      assert oids[j].counter == c0 + j;
    } else if c0 + i < COUNTER_MODULUS {
      assert oids[j].counter == c0 + j - COUNTER_MODULUS;
    } else {
      assert oids[i].counter == c0 + i - COUNTER_MODULUS;
      assert oids[j].counter == c0 + j - COUNTER_MODULUS;
    }
  }

  /** Different counters give different candidate usernames. */
  lemma CandidateInjective(base: string, o1: ObjectId, o2: ObjectId)
    requires WellFormed(o1) && WellFormed(o2) && o1.counter != o2.counter
    ensures Candidate(base, Suffix(o1)) != Candidate(base, Suffix(o2))
  {
    SuffixIsCounter(o1);
    SuffixIsCounter(o2);
    var pre := base + "_";
    assert Candidate(base, Suffix(o1))[|pre|..] == Suffix(o1);
    assert Candidate(base, Suffix(o2))[|pre|..] == Suffix(o2);
    assert COUNTER_MODULUS == Pow16(6);
    if Suffix(o1) == Suffix(o2) {
      HexDigitsInjective(o1.counter, o2.counter, 6);
    }
  }

  /** With the counter as suffix, up to 2^24 successive ids give pairwise different usernames. */
  lemma CandidatesDistinct(base: string, oids: seq<ObjectId>)
    requires Successive(oids) && |oids| <= COUNTER_MODULUS
    ensures forall i, j :: 0 <= i < j < |oids| ==> Candidates(base, oids)[i] != Candidates(base, oids)[j]
  {
    forall i, j | 0 <= i < j < |oids|
      ensures Candidates(base, oids)[i] != Candidates(base, oids)[j]
    {
      CountersDistinct(oids, i, j);
      CandidateInjective(base, oids[i], oids[j]);
    }
  }

  // ---------------------------------------------------------------- inserting

  /** An insert that repeats an email or a username of any stored user, deleted or not, breaks a unique index. */
  predicate Taken(users: seq<User>, email: string, username: string)
  {
    exists k :: 0 <= k < |users| && (users[k].email == email || users[k].username == username)
  }

  /**
   * What the database answers an insert: a duplicate key for a taken email or username; otherwise
   * `fault`, the error it may fail with for any other reason, or success.
   */
  function InsertOutcome(users: seq<User>, u: User, fault: Option<DaoError>, duplicateMessage: string): (r: Result<(), DaoError>)
    ensures Taken(users, u.email, u.username) ==> r == Err(DuplicateKey(duplicateMessage))
    ensures r.Ok? <==> !Taken(users, u.email, u.username) && fault.None?
  {
    if Taken(users, u.email, u.username) then Err(DuplicateKey(duplicateMessage))
    else if fault.Some? then Err(fault.value)
    else Ok(())
  }

  predicate IsDuplicate(r: Result<(), DaoError>) { r.Err? && r.error.DuplicateKey? }

  /** The error after five failed tries. */
  const RETRIES_EXHAUSTED := "Failed to generate unique username after retries"
  const RETRIES: nat := 5

  /**
   * The retry loop from try `i` on: the first try whose insert succeeds is the one kept; a
   * duplicate key moves on to the next try, any other error ends the loop with that error.
   */
  function Retry(users: seq<User>, tries: seq<User>, faults: seq<Option<DaoError>>, duplicateMessage: string, i: nat): (r: Result<nat, DaoError>)
    requires |faults| == |tries| && i <= |tries|
    ensures r.Ok? ==> i <= r.value < |tries|
    decreases |tries| - i
  {
    if i == |tries| then Err(DuplicateKey(RETRIES_EXHAUSTED))
    else match InsertOutcome(users, tries[i], faults[i], duplicateMessage)
      case Ok(_) => Ok(i)
      case Err(DuplicateKey(_)) => Retry(users, tries, faults, duplicateMessage, i + 1)
      case Err(e) => Err(e)
  }

  /**
   * The loop's answer exactly: it creates the user of try `k` when every earlier try broke a unique
   * index and try `k` went through; it fails with the error of the first try that failed otherwise;
   * and it gives up with the exhaustion error only when every try was a duplicate.
   */
  lemma {:induction false} RetryExact(users: seq<User>, tries: seq<User>, faults: seq<Option<DaoError>>, dm: string, i: nat)
    requires |faults| == |tries| && i <= |tries|
    ensures var r := Retry(users, tries, faults, dm, i);
      (r.Ok? ==> InsertOutcome(users, tries[r.value], faults[r.value], dm).Ok?
                 && forall j :: i <= j < r.value ==> IsDuplicate(InsertOutcome(users, tries[j], faults[j], dm)))
      && ((forall j :: i <= j < |tries| ==> IsDuplicate(InsertOutcome(users, tries[j], faults[j], dm)))
          ==> r == Err(DuplicateKey(RETRIES_EXHAUSTED)))
      && (r.Err? && !r.error.DuplicateKey? ==>
            exists j :: i <= j < |tries| && InsertOutcome(users, tries[j], faults[j], dm) == Err(r.error))
    decreases |tries| - i
  {
    if i < |tries| {
      RetryExact(users, tries, faults, dm, i + 1);
    }
  }

  /** A deleted user still holds its email in the unique index: a sign-in with that email can never create an account. */
  lemma {:induction false} HeldEmailBlocksCreation(users: seq<User>, tries: seq<User>, faults: seq<Option<DaoError>>, dm: string, i: nat, k: nat)
    requires |faults| == |tries| && i <= |tries| && k < |users|
    requires forall j :: 0 <= j < |tries| ==> tries[j].email == users[k].email
    ensures Retry(users, tries, faults, dm, i) == Err(DuplicateKey(RETRIES_EXHAUSTED))
    decreases |tries| - i
  {
    if i < |tries| {
      assert Taken(users, tries[i].email, tries[i].username);
      HeldEmailBlocksCreation(users, tries, faults, dm, i + 1, k);
    }
  }

  // ---------------------------------------------------------------- find or create by OAuth

  /** A live user that carries this very (provider, provider id) pair in one entry. */
  function LinkedTo(link: OAuthLink): User -> bool
  {
    (u: User) => !u.deleted && link in u.oauthProviders
  }

  /**
   * The lookup as the query is written: the two dotted conditions each match any entry of the
   * array, so the provider may come from one entry and the provider id from another.
   */
  function LinkedToAsWritten(link: OAuthLink): User -> bool
  {
    (u: User) => !u.deleted
      && (exists j :: 0 <= j < |u.oauthProviders| && u.oauthProviders[j].provider == link.provider)
      && (exists j :: 0 <= j < |u.oauthProviders| && u.oauthProviders[j].providerId == link.providerId)
  }

  /** Every user the intended lookup finds, the written query finds too. */
  lemma LinkedToAsWrittenWeaker(link: OAuthLink, u: User)
    ensures LinkedTo(link)(u) ==> LinkedToAsWritten(link)(u)
  {
    if LinkedTo(link)(u) {
      var j :| 0 <= j < |u.oauthProviders| && u.oauthProviders[j] == link;
      assert u.oauthProviders[j].provider == link.provider;
    }
  }

  /**
   * A user linked to Google as "1" and to GitHub as "2" is found by the written query for a GitHub
   * sign-in as "1", a different GitHub account; the intended lookup does not find them.
   */
  lemma LinkedToAsWrittenCrossMatch()
    ensures var u := User("u1", "a@example.com", "a", "A", None, None, None, DEFAULT_LOCALE, DEFAULT_TIMEZONE, true,
                          [OAuthLink("google", "1"), OAuthLink("github", "2")], 0, 0, false);
      LinkedToAsWritten(OAuthLink("github", "1"))(u) && !LinkedTo(OAuthLink("github", "1"))(u)
  {
    var u := User("u1", "a@example.com", "a", "A", None, None, None, DEFAULT_LOCALE, DEFAULT_TIMEZONE, true,
                  [OAuthLink("google", "1"), OAuthLink("github", "2")], 0, 0, false);
    assert u.oauthProviders[1].provider == "github";
    assert u.oauthProviders[0].providerId == "1";
    assert OAuthLink("github", "1") != u.oauthProviders[0] && OAuthLink("github", "1") != u.oauthProviders[1];
  }

  function LiveWithEmail(email: string): User -> bool
  {
    (u: User) => !u.deleted && u.email == email
  }

  /** Linking a provider: appended unless that exact pair is already there. */
  function Link(u: User, link: OAuthLink): User
  {
    if link in u.oauthProviders then u else u.(oauthProviders := u.oauthProviders + [link])
  }

  /** The inserts the retries try: the new OAuth user under each candidate username. */
  function Tries(id: string, email: string, displayName: string, avatar: Option<string>, link: OAuthLink, names: seq<string>, nowMs: int): seq<User>
  {
    seq(|names|, i requires 0 <= i < |names| => NewOAuthUser(id, email, names[i], displayName, avatar, link, nowMs))
  }

  /** The inputs of one OAuth sign-in besides the collection. */
  datatype SignIn = SignIn(link: OAuthLink, email: string, displayName: string, avatar: Option<string>)

  /**
   * `find_or_create_by_oauth` as a step on the collection: the user already linked to the pair;
   * else the live user with the email, linked; else a new user under the first username that goes
   * through. The new collection and the answer.
   */
  function OAuthStep(users: seq<User>, s: SignIn, newId: string, names: seq<string>, faults: seq<Option<DaoError>>, nowMs: int, dm: string): (seq<User>, Result<User, DaoError>)
    requires |faults| == |names|
  {
    match IndexWhere(users, LinkedTo(s.link))
    case Some(k) => (users, Ok(users[k]))
    case None =>
      match IndexWhere(users, LiveWithEmail(s.email))
      case Some(k) => var u := Link(users[k], s.link); (users[k := u], Ok(u))
      case None =>
        var tries := Tries(newId, s.email, s.displayName, s.avatar, s.link, names, nowMs);
        match Retry(users, tries, faults, dm, 0)
        case Ok(i) => (users + [tries[i]], Ok(tries[i]))
        case Err(e) => (users, Err(e))
  }

  /**
   * The resolution order: a user already linked is returned unchanged; a live user with the email
   * is returned with the provider linked once, keeping every other field and its username; only
   * when neither exists can a user be added, and it is then verified, without password, linked to
   * exactly this provider, with one of the candidate usernames.
   */
  lemma OAuthResolution(users: seq<User>, s: SignIn, newId: string, names: seq<string>, faults: seq<Option<DaoError>>, nowMs: int, dm: string)
    requires |faults| == |names|
    ensures var (after, r) := OAuthStep(users, s, newId, names, faults, nowMs, dm);
      (exists k :: 0 <= k < |users| && LinkedTo(s.link)(users[k])) ==>
        after == users && r.Ok? && r.value in users && !r.value.deleted && s.link in r.value.oauthProviders
    ensures var (after, r) := OAuthStep(users, s, newId, names, faults, nowMs, dm);
      (forall k :: 0 <= k < |users| ==> !LinkedTo(s.link)(users[k])) && (exists k :: 0 <= k < |users| && LiveWithEmail(s.email)(users[k])) ==>
        r.Ok? && r.value.email == s.email && |after| == |users|
        && (exists k :: 0 <= k < |users| && LiveWithEmail(s.email)(users[k]) && after[k] == r.value
              && r.value.username == users[k].username && r.value.id == users[k].id
              && r.value.oauthProviders == users[k].oauthProviders + [s.link]
              && r.value == users[k].(oauthProviders := r.value.oauthProviders))
    ensures var (after, r) := OAuthStep(users, s, newId, names, faults, nowMs, dm);
      |after| > |users| ==>
        (forall k :: 0 <= k < |users| ==> !LinkedTo(s.link)(users[k]) && !LiveWithEmail(s.email)(users[k]))
        && after == users + [r.value]
        && r.value.isVerified && r.value.passwordHash.None? && r.value.oauthProviders == [s.link]
        && r.value.email == s.email && r.value.id == newId && r.value.username in names
  {
    var tries := Tries(newId, s.email, s.displayName, s.avatar, s.link, names, nowMs);
    match IndexWhere(users, LinkedTo(s.link))
    case Some(k) =>
    case None =>
      match IndexWhere(users, LiveWithEmail(s.email))
      case Some(k) =>
        assert s.link !in users[k].oauthProviders by {
          assert !LinkedTo(s.link)(users[k]);
        }
      case None =>
        match Retry(users, tries, faults, dm, 0)
        case Ok(i) =>
          assert tries[i].username == names[i];
        case Err(e) =>
  }

  /** Signing in twice with the same provider links it once: the second call finds the user and changes nothing. */
  lemma OAuthTwiceLinksOnce(users: seq<User>, s: SignIn, id1: string, id2: string, names: seq<string>, faults: seq<Option<DaoError>>, nowMs: int, laterMs: int, dm: string)
    requires |faults| == |names|
    requires OAuthStep(users, s, id1, names, faults, nowMs, dm).1.Ok?
    ensures var after := OAuthStep(users, s, id1, names, faults, nowMs, dm).0;
      var (again, r) := OAuthStep(after, s, id2, names, faults, laterMs, dm);
      again == after && r.Ok? && s.link in r.value.oauthProviders
  {
    var (after, r) := OAuthStep(users, s, id1, names, faults, nowMs, dm);
    OAuthResolution(users, s, id1, names, faults, nowMs, dm);
    var u := r.value;
    assert LinkedTo(s.link)(u);
    var p :| 0 <= p < |after| && after[p] == u;
    assert IndexWhere(after, LinkedTo(s.link)).Some?;
  }

  // ---------------------------------------------------------------- display names and profiles

  /** The name the batch lookup reports: the display name, or the username when that is empty. */
  function NameOf(u: User): string
  {
    if u.displayName == "" then u.username else u.displayName
  }

  /** `find_display_names` on a collection read in order: live users among the ids, with a non-empty name. */
  function DisplayNames(users: seq<User>, ids: seq<string>): map<string, string>
  {
    if users == [] then map[]
    else
      var m := DisplayNames(users[..|users| - 1], ids);
      var u := users[|users| - 1];
      if u.id in ids && !u.deleted && NameOf(u) != "" then m[u.id := NameOf(u)] else m
  }

  /**
   * With distinct ids, an id is reported exactly when it belongs to a live user among the asked
   * ids whose name is not empty, and it is reported with that user's name.
   */
  lemma {:induction false} DisplayNamesExact(users: seq<User>, ids: seq<string>)
    requires forall k, j :: 0 <= k < j < |users| ==> users[k].id != users[j].id
    ensures forall k :: 0 <= k < |users| && users[k].id in ids && !users[k].deleted && NameOf(users[k]) != "" ==>
      users[k].id in DisplayNames(users, ids) && DisplayNames(users, ids)[users[k].id] == NameOf(users[k])
    ensures forall key :: key in DisplayNames(users, ids) ==>
      key in ids && DisplayNames(users, ids)[key] != ""
      && exists k :: 0 <= k < |users| && users[k].id == key && !users[k].deleted
  {
    if users != [] {
      var front := users[..|users| - 1];
      DisplayNamesExact(front, ids);
      forall k | 0 <= k < |front|
        ensures front[k] == users[k]
      {
      }
    }
  }

  /** The early return for an empty id list agrees with the general answer: nothing is reported. */
  lemma {:induction false} DisplayNamesNoIds(users: seq<User>)
    ensures DisplayNames(users, []) == map[]
  {
    if users != [] {
      DisplayNamesNoIds(users[..|users| - 1]);
    }
  }

  datatype ProfileUpdate = ProfileUpdate(displayName: Option<string>, bio: Option<string>, avatar: Option<string>,
                                         locale: Option<string>, timezone: Option<string>)

  predicate NoFields(p: ProfileUpdate)
  {
    p.displayName.None? && p.bio.None? && p.avatar.None? && p.locale.None? && p.timezone.None?
  }

  /** The user after `update_profile` sets the provided fields and the update time. */
  function Patched(u: User, p: ProfileUpdate, nowMs: int): User
  {
    u.(displayName := p.displayName.UnwrapOr(u.displayName),
       bio := if p.bio.Some? then p.bio else u.bio,
       avatar := if p.avatar.Some? then p.avatar else u.avatar,
       locale := p.locale.UnwrapOr(u.locale),
       timezone := p.timezone.UnwrapOr(u.timezone),
       updatedAt := nowMs)
  }

  /**
   * A patch sets exactly the provided fields and touches the identity, credentials and links not
   * at all; applying it again changes nothing.
   */
  lemma PatchedExact(u: User, p: ProfileUpdate, nowMs: int)
    ensures var v := Patched(u, p, nowMs);
      (p.displayName.Some? ==> v.displayName == p.displayName.value) && (p.displayName.None? ==> v.displayName == u.displayName)
      && (p.bio.Some? ==> v.bio == p.bio) && (p.bio.None? ==> v.bio == u.bio)
      && (p.locale.Some? ==> v.locale == p.locale.value) && (p.locale.None? ==> v.locale == u.locale)
      && v.updatedAt == nowMs
      && v.id == u.id && v.email == u.email && v.username == u.username && v.passwordHash == u.passwordHash
      && v.oauthProviders == u.oauthProviders && v.deleted == u.deleted
    ensures Patched(Patched(u, p, nowMs), p, nowMs) == Patched(u, p, nowMs)
  {
  }

  function HasUserId(id: string): User -> bool { (u: User) => u.id == id }

  class UserStore {
    /** The collection, in insertion order. */
    var users: seq<User>

    /** Ids, emails and usernames are each distinct across the collection. */
    ghost predicate Valid()
      reads this
    {
      forall k, j :: 0 <= k < j < |users| ==>
        users[k].id != users[j].id && users[k].email != users[j].email && users[k].username != users[j].username
    }

    constructor ()
      ensures Valid() && users == []
    {
      users := [];
    }

    /** The database's insert: refused on a taken email or username, or on `fault`; stored otherwise. */
    method Insert(u: User, fault: Option<DaoError>, duplicateMessage: string) returns (r: Result<(), DaoError>)
      requires Valid() && forall k :: 0 <= k < |users| ==> users[k].id != u.id
      modifies this
      ensures Valid()
      ensures r == InsertOutcome(old(users), u, fault, duplicateMessage)
      ensures users == if r.Ok? then old(users) + [u] else old(users)
    {
      r := InsertOutcome(users, u, fault, duplicateMessage);
      if r.Ok? {
        users := users + [u];
      }
    }

    /** `create`: a password account, inserted and returned. */
    method Create(id: string, email: string, username: string, displayName: string, passwordHash: string, nowMs: int,
                  fault: Option<DaoError>, duplicateMessage: string) returns (r: Result<User, DaoError>)
      requires Valid() && forall k :: 0 <= k < |users| ==> users[k].id != id
      modifies this
      ensures Valid()
      ensures Taken(old(users), email, username) ==> r == Err(DuplicateKey(duplicateMessage)) && users == old(users)
      ensures r.Ok? <==> !Taken(old(users), email, username) && fault.None?
      ensures r.Ok? ==> r.value == NewUser(id, email, username, displayName, passwordHash, nowMs) && users == old(users) + [r.value]
      ensures r.Err? ==> users == old(users)
    {
      var u := NewUser(id, email, username, displayName, passwordHash, nowMs);
      var inserted := Insert(u, fault, duplicateMessage);
      if inserted.Ok? {
        r := Ok(u);
      } else {
        r := Err(inserted.error);
      }
    }

    /** `find_by_email`: the live user with the email, else not found. */
    method FindByEmail(email: string) returns (r: Result<User, DaoError>)
      ensures r == match IndexWhere(users, LiveWithEmail(email)) case Some(k) => Ok(users[k]) case None => Err(DaoNotFound)
    {
      var k := 0;
      while k < |users|
        invariant 0 <= k <= |users|
        invariant forall j :: 0 <= j < k ==> !LiveWithEmail(email)(users[j])
      {
        if !users[k].deleted && users[k].email == email {
          assert LiveWithEmail(email)(users[k]);
          return Ok(users[k]);
        }
        k := k + 1;
      }
      return Err(DaoNotFound);
    }

    /**
     * `find_or_create_by_oauth`: `oids` are the object ids the five tries draw their suffixes
     * from, `faults` the errors other than a duplicate key their inserts may meet, and `newId` the
     * id the database gives a created user.
     */
    method FindOrCreateByOAuth(s: SignIn, newId: string, oids: seq<ObjectId>, faults: seq<Option<DaoError>>, nowMs: int, duplicateMessage: string)
      returns (r: Result<User, DaoError>)
      requires Valid() && forall k :: 0 <= k < |users| ==> users[k].id != newId
      requires |oids| == RETRIES && |faults| == RETRIES
      modifies this
      ensures Valid()
      ensures (users, r) == OAuthStep(old(users), s, newId, Candidates(BaseUsername(s.displayName), oids), faults, nowMs, duplicateMessage)
    {
      var found := IndexWhere(users, LinkedTo(s.link));
      if found.Some? {
        return Ok(users[found.value]);
      }
      var byEmail := FindByEmail(s.email);
      if byEmail.Ok? {
        var k := IndexWhere(users, LiveWithEmail(s.email)).value;
        var u := Link(users[k], s.link);
        users := users[k := u];
        return Ok(u);
      }
      r := CreateOAuthUser(s, newId, BaseUsername(s.displayName), oids, faults, nowMs, duplicateMessage);
    }

    /** The five tries of `find_or_create_by_oauth`: the first insert that goes through, or the first other error. */
    method CreateOAuthUser(s: SignIn, newId: string, base: string, oids: seq<ObjectId>, faults: seq<Option<DaoError>>, nowMs: int,
                           duplicateMessage: string)
      returns (r: Result<User, DaoError>)
      requires Valid() && forall k :: 0 <= k < |users| ==> users[k].id != newId
      requires |oids| == RETRIES && |faults| == RETRIES
      modifies this
      ensures Valid()
      ensures var tries := Tries(newId, s.email, s.displayName, s.avatar, s.link, Candidates(base, oids), nowMs);
        match Retry(old(users), tries, faults, duplicateMessage, 0)
        case Ok(i) => r == Ok(tries[i]) && users == old(users) + [tries[i]]
        case Err(e) => r == Err(e) && users == old(users)
    {
      ghost var names := Candidates(base, oids);
      ghost var tries := Tries(newId, s.email, s.displayName, s.avatar, s.link, names, nowMs);
      var i := 0;
      while i < RETRIES
        invariant 0 <= i <= RETRIES
        invariant users == old(users)
        invariant Retry(users, tries, faults, duplicateMessage, 0) == Retry(users, tries, faults, duplicateMessage, i)
      {
        var u := NewOAuthUser(newId, s.email, Candidate(base, Suffix(oids[i])), s.displayName, s.avatar, s.link, nowMs);
        assert u == tries[i];
        var inserted := Insert(u, faults[i], duplicateMessage);
        if inserted.Ok? {
          return Ok(u);
        } else if !inserted.error.DuplicateKey? {
          return Err(inserted.error);
        }
        i := i + 1;
      }
      return Err(DuplicateKey(RETRIES_EXHAUSTED));
    }

    /** `find_display_names`: an empty list returns at once; otherwise the collection is read in order. */
    method FindDisplayNames(ids: seq<string>) returns (names: map<string, string>)
      ensures names == DisplayNames(users, ids)
    {
      names := map[];
      if |ids| == 0 {
        DisplayNamesNoIds(users);
        return;
      }
      var i := 0;
      while i < |users|
        invariant 0 <= i <= |users|
        invariant names == DisplayNames(users[..i], ids)
      {
        var u := users[i];
        assert users[..i + 1][..i] == users[..i];
        if u.id in ids && !u.deleted {
          var name := if u.displayName == "" then u.username else u.displayName;
          if name != "" {
            names := names[u.id := name];
          }
        }
        i := i + 1;
      }
      assert users[..i] == users;
    }

    /** `update_profile`: nothing provided means no write and false; otherwise the user with the id is patched. */
    method UpdateProfile(userId: string, p: ProfileUpdate, nowMs: int) returns (matched: bool)
      requires Valid()
      modifies this
      ensures Valid()
      ensures NoFields(p) ==> !matched && users == old(users)
      ensures !NoFields(p) ==>
        var k := IndexWhere(old(users), HasUserId(userId));
        matched == k.Some?
        && users == if k.Some? then old(users)[k.value := Patched(old(users)[k.value], p, nowMs)] else old(users)
    {
      if NoFields(p) {
        return false;
      }
      var k := IndexWhere(users, HasUserId(userId));
      matched := k.Some?;
      if k.Some? {
        users := users[k.value := Patched(users[k.value], p, nowMs)];
      }
    }
  }
}
