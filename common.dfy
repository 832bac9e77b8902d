/**
 * Values shared by every part of the model: an optional value for Java's
 * nullable references, the caller's identity, the HTTP statuses and error
 * reasons the resources answer with, the java.lang.String predicates the
 * handlers rely on (trim, isBlank, equalsIgnoreCase) and the
 * java.util.List operations (remove, add-if-absent) used on entity lists.
 */
module Common {

  /** A Java reference that may be null. */
  datatype Option<T> = None | Some(value: T)

  /** What a read-only handler answers: the body it returns, or why it refused. */
  datatype Outcome<T> = Success(value: T) | Failure(error: Error)

  /** A reading of `LocalDateTime.now()`, supplied by the caller. */
  type Timestamp = int

  /**
   * The authenticated caller (Quarkus `SecurityIdentity`): the principal's
   * name when there is a principal, and whether the identity is anonymous.
   */
  datatype Identity = Identity(principal: Option<string>, anonymous: bool)

  /** HTTP statuses the handlers answer with. */
  datatype Status =
    | Ok | Created
    | BadRequest | Unauthorized | Forbidden | NotFound | Conflict | InternalServerError

  /** Why a handler refused a request; each reason has one status. */
  datatype Error =
    | UserNotFound | ArtistNotFound | NotOwner | CommissionCardNotFound
    | NotAuthenticated
    | RegistrationFieldsMissing | AlreadyRegistered
    | CardAlreadyExists | ElementTitleRequired | ElementDescriptionRequired
    | ElementNotFound | ElementFieldNotText
    | TagNameRequired | TagNotFound | TagNotOnArtist
    | IsOpenMissing
    | SocialAccountNotFound
    | NoVerifiedBluesky | NoSyncCapability | SessionDecryptionFailed
  {
    function StatusOf(): (s: Status)
      ensures s != Ok && s != Created
    {
      match this
      case NotAuthenticated => Unauthorized
      case NotOwner => Forbidden
      case RegistrationFieldsMissing | ElementTitleRequired | ElementDescriptionRequired
        | TagNameRequired | IsOpenMissing => BadRequest
      case AlreadyRegistered | CardAlreadyExists => Conflict
      case ElementFieldNotText | SessionDecryptionFailed => InternalServerError
      case _ => NotFound
    }
  }

  // ---------------------------------------------------------------------
  // java.lang.String.trim(): strips every leading and trailing char whose
  // code is at most U+0020.

  predicate IsTrimmable(c: char) {
    c <= ' '
  }

  /** Number of trimmable chars at the front of `s`. */
  function LeadingTrimmable(s: string): (n: nat)
    ensures n <= |s|
    ensures forall k :: 0 <= k < n ==> IsTrimmable(s[k])
    ensures n < |s| ==> !IsTrimmable(s[n])
  {
    if s == [] || !IsTrimmable(s[0]) then 0 else 1 + LeadingTrimmable(s[1..])
  }

  /** Number of trimmable chars at the back of `s`. */
  function TrailingTrimmable(s: string): (n: nat)
    ensures n <= |s|
    ensures forall k :: |s| - n <= k < |s| ==> IsTrimmable(s[k])
    ensures n < |s| ==> !IsTrimmable(s[|s| - 1 - n])
  {
    if s == [] || !IsTrimmable(s[|s| - 1]) then 0 else 1 + TrailingTrimmable(s[..|s| - 1])
  }

  /**
   * `s.trim()`: the longest slice of `s` that neither starts nor ends with a
   * trimmable char, obtained by dropping only trimmable chars at both ends.
   */
  function Trim(s: string): (r: string)
    ensures r == [] <==> forall k :: 0 <= k < |s| ==> IsTrimmable(s[k])
    ensures r != [] ==> !IsTrimmable(r[0]) && !IsTrimmable(r[|r| - 1])
    ensures exists i, j {:trigger s[i..j]} ::
              (0 <= i <= j <= |s| && r == s[i..j]
               && (forall k :: 0 <= k < i ==> IsTrimmable(s[k]))
               && (forall k :: j <= k < |s| ==> IsTrimmable(s[k])))
  {
    var i := LeadingTrimmable(s);
    if i == |s| then
      assert s[|s|..|s|] == [];
      []
    else
      var j := |s| - TrailingTrimmable(s);
      assert i < j;
      s[i..j]
  }

  /** A trimmed string trims to itself. */
  lemma {:induction false} TrimIdempotent(s: string)
    ensures Trim(Trim(s)) == Trim(s)
  {
    var r := Trim(s);
    if r != [] {
      assert LeadingTrimmable(r) == 0;
      assert TrailingTrimmable(r) == 0;
      assert r[0..|r|] == r;
    }
  }

  /** `s.trim().isEmpty()`, the blank test of the card and tag handlers. */
  predicate IsEmptyAfterTrim(s: string) {
    Trim(s) == []
  }

  /** `Character.isWhitespace(c)`, the char test behind `String.isBlank()`. */
  predicate IsJavaWhitespace(c: char) {
    ('\t' <= c <= '\r') || ('\U{1C}' <= c <= ' ') || c == '\U{1680}'
    || ('\U{2000}' <= c <= '\U{2006}') || ('\U{2008}' <= c <= '\U{200A}')
    || c == '\U{2028}' || c == '\U{2029}' || c == '\U{205F}' || c == '\U{3000}'
  }

  /** `s.isBlank()`, the blank test of registration. */
  predicate IsBlank(s: string) {
    forall k :: 0 <= k < |s| ==> IsJavaWhitespace(s[k])
  }

  /**
   * The two blank tests differ: a lone NUL is stripped by trim() but is not
   * whitespace, and U+2028 is whitespace but survives trim().
   */
  lemma BlankTestsDiffer()
    ensures IsEmptyAfterTrim("\0") && !IsBlank("\0")
    ensures IsBlank("\U{2028}") && !IsEmptyAfterTrim("\U{2028}")
  {
    assert !IsJavaWhitespace("\0"[0]);
    assert !IsTrimmable("\U{2028}"[0]);
  }

  // ---------------------------------------------------------------------
  // java.lang.String.equalsIgnoreCase, with ASCII case folding.

  function UpperAscii(c: char): (u: char)
    ensures 'a' <= c <= 'z' ==> 'A' <= u <= 'Z' && u as int == c as int - 32
    ensures !('a' <= c <= 'z') ==> u == c
  {
    if 'a' <= c <= 'z' then (c as int - 32) as char else c
  }

  predicate CharEqualsIgnoreCase(a: char, b: char) {
    a == b || UpperAscii(a) == UpperAscii(b)
  }

  predicate EqualsIgnoreCase(a: string, b: string) {
    |a| == |b| && forall k :: 0 <= k < |a| ==> CharEqualsIgnoreCase(a[k], b[k])
  }

  /** equalsIgnoreCase is an equivalence relation that contains equality. */
  lemma EqualsIgnoreCaseIsEquivalence(a: string, b: string, c: string)
    ensures a == b ==> EqualsIgnoreCase(a, b)
    ensures EqualsIgnoreCase(a, b) ==> EqualsIgnoreCase(b, a)
    ensures EqualsIgnoreCase(a, b) && EqualsIgnoreCase(b, c) ==> EqualsIgnoreCase(a, c)
  {
  }

  /** Strings that differ only in the case of ASCII letters are equal ignoring case. */
  lemma UpperCaseEqualsIgnoreCase(a: string)
    ensures EqualsIgnoreCase(a, seq(|a|, k requires 0 <= k < |a| => UpperAscii(a[k])))
  {
  }

  // ---------------------------------------------------------------------
  // java.util.List operations on entity lists.

  /** Position of the first occurrence of `x` in `s`. */
  function IndexOf<T(==)>(s: seq<T>, x: T): (i: nat)
    requires x in s
    ensures i < |s| && s[i] == x && x !in s[..i]
  {
    if s[0] == x then 0
    else
      var i := 1 + IndexOf(s[1..], x);
      assert s[..i] == [s[0]] + s[1..][..i - 1];
      i
  }

  /**
   * `list.remove(x)`: drops the first occurrence of `x`, keeping the order
   * of the others; a list without `x` is left as it is.
   */
  function RemoveFirst<T(==)>(s: seq<T>, x: T): (r: seq<T>)
    ensures x !in s ==> r == s
    ensures x in s ==> r == s[..IndexOf(s, x)] + s[IndexOf(s, x) + 1..]
    ensures multiset(r) == multiset(s) - multiset{x}
  {
    if x in s then
      var i := IndexOf(s, x);
      assert s == s[..i] + [x] + s[i + 1..];
      s[..i] + s[i + 1..]
    else
      s
  }

  /**
   * `if (!list.contains(x)) list.add(x)`: `x` ends up in the list, nothing
   * already there moves, and no duplicate is introduced.
   */
  function AppendIfAbsent<T(==)>(s: seq<T>, x: T): (r: seq<T>)
    ensures |r| == if x in s then |s| else |s| + 1
    ensures x in r
    ensures r[..|s|] == s
    ensures (set y | y in r) == (set y | y in s) + {x}
    ensures NoDuplicates(s) ==> NoDuplicates(r)
  {
    if x in s then s else s + [x]
  }

  predicate NoDuplicates<T(==)>(s: seq<T>) {
    forall i, j :: 0 <= i < j < |s| ==> s[i] != s[j]
  }

  /** Adding an element that is already present changes nothing. */
  lemma AppendIfAbsentIdempotent<T>(s: seq<T>, x: T)
    ensures AppendIfAbsent(AppendIfAbsent(s, x), x) == AppendIfAbsent(s, x)
  {
  }

  /** Removing what add-if-absent just appended gives the list back. */
  lemma {:induction false} RemoveUndoesAdd<T>(s: seq<T>, x: T)
    requires x !in s
    ensures RemoveFirst(AppendIfAbsent(s, x), x) == s
  {
    var t := s + [x];
    assert AppendIfAbsent(s, x) == t;
    assert t[..|s|] == s;
    assert IndexOf(t, x) == |s|;
    assert t[|s| + 1..] == [];
  }

  /** Removing from a duplicate-free list removes the element entirely. */
  lemma {:induction false} RemoveFirstFromNoDuplicates<T>(s: seq<T>, x: T)
    requires NoDuplicates(s)
    ensures x !in RemoveFirst(s, x)
    ensures NoDuplicates(RemoveFirst(s, x))
  {
    if x in s {
      var i := IndexOf(s, x);
      var r := RemoveFirst(s, x);
      assert r == s[..i] + s[i + 1..];
      assert |r| == |s| - 1;
      forall k | 0 <= k < |r| ensures r[k] == s[if k < i then k else k + 1] {
        if k < i {
          assert r[k] == s[..i][k];
        } else {
          assert r[k] == s[i + 1..][k - i];
        }
      }
      forall k | 0 <= k < |r| ensures r[k] != x {
        assert r[k] == s[if k < i then k else k + 1];
      }
      forall a, b | 0 <= a < b < |r| ensures r[a] != r[b] {
        assert r[a] == s[if a < i then a else a + 1];
        assert r[b] == s[if b < i then b else b + 1];
      }
    }
  }
}
