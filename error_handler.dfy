/** The error sanitiser: whatever was thrown becomes one of a fixed set
    of user-facing messages, so backend details never reach the screen. */
module ErrorHandler {
  import opened Wrappers
  import opened Text

  /** What a `catch` can receive, as far as the sanitiser looks at it. */
  datatype Thrown =
    | ErrorObject(message: string)    // an `Error` instance
    | StringValue(text: string)       // a thrown string
    | MessageObject(message: string)  // another object with a `message`, rendered by `String`
    | OtherValue                      // anything else: null, undefined, numbers, plain objects

  const GenericMessage := "An error occurred. Please try again."
  const NetworkMessage := "Network error. Please check your connection and try again."
  const PermissionMessage := "Unable to access data. Please check your permissions."
  const AuthFallbackMessage := "Authentication error. Please try again."

  /** Every message the sanitiser can produce. */
  const Messages: set<string> := {
    GenericMessage, NetworkMessage, PermissionMessage, AuthFallbackMessage,
    "Invalid email address.", "No account found with this email.", "Incorrect password.",
    "An account with this email already exists.", "Password is too weak. Please use a stronger password.",
    "Too many attempts. Please try again later.", "Invalid email or password.",
    "This account has been disabled.", "This operation is not allowed.",
    "Please log in again to complete this action."}

  /** The message for an authentication code (the part after `auth/`). */
  function AuthMessage(authCode: string): (m: string)
    ensures m in Messages
  {
    if authCode == "network-request-failed" then NetworkMessage
    else if authCode == "invalid-email" then "Invalid email address."
    else if authCode == "user-not-found" then "No account found with this email."
    else if authCode == "wrong-password" then "Incorrect password."
    else if authCode == "email-already-in-use" then "An account with this email already exists."
    else if authCode == "weak-password" then "Password is too weak. Please use a stronger password."
    else if authCode == "too-many-requests" then "Too many attempts. Please try again later."
    else if authCode == "invalid-credential" then "Invalid email or password."
    else if authCode == "user-disabled" then "This account has been disabled."
    else if authCode == "operation-not-allowed" then "This operation is not allowed."
    else if authCode == "requires-recent-login" then "Please log in again to complete this action."
    else AuthFallbackMessage
  }

  /** The known authentication codes. */
  const AuthCodes: set<string> := {
    "network-request-failed", "invalid-email", "user-not-found", "wrong-password",
    "email-already-in-use", "weak-password", "too-many-requests", "invalid-credential",
    "user-disabled", "operation-not-allowed", "requires-recent-login"}

  /** An unknown authentication code gets the authentication fallback,
      and a known one never does. */
  lemma AuthFallback(authCode: string)
    ensures authCode !in AuthCodes <==> AuthMessage(authCode) == AuthFallbackMessage
  {
  }

  /** The regular-expression class `\s`: JavaScript's white space and
      line terminators. */
  predicate IsSpace(c: char) {
    var n := c as int;
    (9 <= n <= 13) || n == 32 || n == 0xA0 || n == 0x1680 || (0x2000 <= n <= 0x200A) ||
    n == 0x2028 || n == 0x2029 || n == 0x202F || n == 0x205F || n == 0x3000 || n == 0xFEFF
  }

  /** `\s*` from index `i`: the end of the run of white space there. */
  function SkipSpace(s: string, i: nat): (j: nat)
    requires i <= |s|
    ensures i <= j <= |s|
    ensures forall k :: i <= k < j ==> IsSpace(s[k])
    ensures j < |s| ==> !IsSpace(s[j])
    decreases |s| - i
  {
    if i < |s| && IsSpace(s[i]) then SkipSpace(s, i + 1) else i
  }

  /** `[^)]+` from index `i`: the end of the run of characters other than
      a closing parenthesis. */
  function SkipToParen(s: string, i: nat): (j: nat)
    requires i <= |s|
    ensures i <= j <= |s|
    ensures forall k :: i <= k < j ==> s[k] != ')'
    ensures j < |s| ==> s[j] == ')'
    decreases |s| - i
  {
    if i < |s| && s[i] != ')' then SkipToParen(s, i + 1) else i
  }

  /** The lower-case word `w` occurs at index `i`, ignoring ASCII case. */
  predicate WordAt(s: string, i: nat, w: string) {
    i + |w| <= |s| && Lower(s[i..i + |w|]) == w
  }

  /** `/Firebase:\s*Error\s*\(([^)]+)\)/i` tried at index `i`: the
      captured code when it matches there. No part of the pattern can
      give back characters to a later part (white space is never `E` or
      `(`, and `[^)]+` stops exactly at the `)` it needs), so the greedy
      reading below is the only match at `i`. */
  function MatchAt(s: string, i: nat): (r: Option<string>)
    requires i <= |s|
    ensures r.Some? ==> r.value != [] && forall k :: 0 <= k < |r.value| ==> r.value[k] != ')'
  {
    if !WordAt(s, i, "firebase:") then None
    else
      var a := SkipSpace(s, i + 9);
      if !WordAt(s, a, "error") then None
      else
        var b := SkipSpace(s, a + 5);
        if b == |s| || s[b] != '(' then None
        else
          var c := SkipToParen(s, b + 1);
          if c == b + 1 || c == |s| then None
          else Some(s[b + 1..c])
  }

  /** The first `Some` among `f(i)`, `f(i + 1)`, ..., `f(n)`: a scan for
      the leftmost index where an attempt succeeds. */
  function FirstFrom<T>(f: nat -> Option<T>, i: nat, n: nat): (r: Option<T>)
    requires i <= n
    ensures r.None? <==> forall k :: i <= k <= n ==> f(k).None?
    decreases n - i
  {
    if f(i).Some? then f(i)
    else if i == n then None
    else FirstFrom(f, i + 1, n)
  }

  /** What the scan finds is the result at the leftmost index that
      succeeds. */
  lemma {:induction false} FirstFromLeftmost<T>(f: nat -> Option<T>, i: nat, n: nat)
    requires i <= n && FirstFrom(f, i, n).Some?
    ensures exists k :: i <= k <= n && f(k) == FirstFrom(f, i, n) &&
                        forall j :: i <= j < k ==> f(j).None?
    decreases n - i
  {
    if f(i).None? {
      FirstFromLeftmost(f, i + 1, n);
      var k :| i + 1 <= k <= n && f(k) == FirstFrom(f, i + 1, n) &&
               forall j :: i + 1 <= j < k ==> f(j).None?;
      assert forall j :: i <= j < k ==> f(j).None?;
    }
  }

  /** The pattern tried at index `k` of `s`, failing past the end. */
  function Attempt(s: string): nat -> Option<string> {
    (k: nat) => if k <= |s| then MatchAt(s, k) else None
  }

  /** `errorMessage.match(firebasePattern)`: the capture of the leftmost
      match in `s`. */
  function FirstMatch(s: string): (r: Option<string>)
    ensures r.None? <==> forall k :: 0 <= k <= |s| ==> MatchAt(s, k).None?
    ensures r.Some? ==> exists k :: 0 <= k <= |s| && MatchAt(s, k) == r &&
                                    forall j :: 0 <= j < k ==> MatchAt(s, j).None?
  {
    var r := FirstFrom(Attempt(s), 0, |s|);
    assert forall k :: 0 <= k <= |s| ==> Attempt(s)(k) == MatchAt(s, k);
    if r.Some? then FirstFromLeftmost(Attempt(s), 0, |s|); r else r
  }

  /** The text the sanitiser examines; `None` for a value it does not
      recognise. */
  function MessageOf(error: Thrown): (r: Option<string>)
    ensures r.None? <==> error.OtherValue?
  {
    match error
    case ErrorObject(m) => Some(m)
    case StringValue(t) => Some(t)
    case MessageObject(m) => Some(m)
    case OtherValue => None
  }

  /** The classification of a matched Firebase error code. */
  function CodeMessage(code: string): (m: string)
    ensures m in Messages
  {
    var errorCode := Lower(code);
    if StartsWith(errorCode, "auth/") then AuthMessage(errorCode[5..])
    else if StartsWith(errorCode, "database/") || Contains(errorCode, "permission-denied") then PermissionMessage
    else GenericMessage
  }

  /** The classification of text that does not match the pattern. */
  function TextMessage(errorMessage: string): (m: string)
    ensures m in Messages
  {
    var lower := Lower(errorMessage);
    if Contains(lower, "firebase") then GenericMessage
    else if Contains(lower, "network") || Contains(lower, "fetch") || Contains(lower, "connection") then NetworkMessage
    else GenericMessage
  }

  /** `sanitizeError`: always one of the fixed messages, never the text
      of the error itself. */
  function SanitizeError(error: Thrown): (m: string)
    ensures m in Messages
    ensures error.OtherValue? ==> m == GenericMessage
  {
    var errorMessage := MessageOf(error);
    if errorMessage.None? then GenericMessage
    else
      var found := FirstMatch(errorMessage.value);
      if found.Some? then CodeMessage(found.value)
      else TextMessage(errorMessage.value)
  }

  /** A matched code is classified ignoring its case: `auth/` codes by
      the table, `database/` codes and permission denials as a permission
      problem, anything else generically. */
  lemma MatchedCodes(error: Thrown, code: string)
    requires MessageOf(error).Some? && FirstMatch(MessageOf(error).value) == Some(code)
    ensures StartsWith(Lower(code), "auth/") ==> SanitizeError(error) == AuthMessage(Lower(code)[5..])
    ensures !StartsWith(Lower(code), "auth/") &&
            (StartsWith(Lower(code), "database/") || Contains(Lower(code), "permission-denied")) ==>
              SanitizeError(error) == PermissionMessage
    ensures !StartsWith(Lower(code), "auth/") && !StartsWith(Lower(code), "database/") &&
            !Contains(Lower(code), "permission-denied") ==>
              SanitizeError(error) == GenericMessage
  {
  }

  /** Unmatched text mentioning Firebase in any case is generic, even
      when it also mentions the network. */
  lemma UnmatchedFirebaseIsGeneric(error: Thrown)
    requires MessageOf(error).Some? && FirstMatch(MessageOf(error).value).None?
    requires Contains(Lower(MessageOf(error).value), "firebase")
    ensures SanitizeError(error) == GenericMessage
  {
  }

  /** Other unmatched text is a network error when it mentions the
      network, a fetch or a connection in any case, and generic
      otherwise. */
  lemma UnmatchedText(error: Thrown)
    requires MessageOf(error).Some? && FirstMatch(MessageOf(error).value).None?
    requires !Contains(Lower(MessageOf(error).value), "firebase")
    ensures var lower := Lower(MessageOf(error).value);
            SanitizeError(error) == NetworkMessage <==>
              Contains(lower, "network") || Contains(lower, "fetch") || Contains(lower, "connection")
  {
  }

  /** The first word of the pattern, in the case Firebase writes it. */
  lemma FirebaseWord()
    ensures Lower("Firebase:") == "firebase:"
  {
    assert Lower("Firebase:")[0] == 'f';
  }

  /** The second word of the pattern, in the case Firebase writes it. */
  lemma ErrorWord()
    ensures Lower("Error") == "error"
  {
    assert Lower("Error")[0] == 'e';
  }

  /** A word occurs where a spelling of it in any case does. */
  lemma WordFrom(s: string, i: nat, spelling: string, w: string)
    requires i + |spelling| <= |s| && s[i..i + |spelling|] == spelling && Lower(spelling) == w
    ensures WordAt(s, i, w)
  {
  }

  /** How Firebase renders an error, up to its code. */
  const FirebasePrefix := "Firebase: Error ("

  /** The parts of the rendering the pattern looks at. */
  lemma PrefixParts()
    ensures |FirebasePrefix| == 17
    ensures FirebasePrefix[0..9] == "Firebase:" && FirebasePrefix[10..15] == "Error"
    ensures FirebasePrefix[9] == ' ' && FirebasePrefix[15] == ' ' && FirebasePrefix[16] == '('
  {
    assert FirebasePrefix == "Firebase:" + " " + "Error" + " (";
  }

  /** A string starting with Firebase's rendering has its parts. */
  lemma PrefixSlices(s: string)
    requires FirebasePrefix <= s
    ensures |s| >= 17 && s[0..9] == "Firebase:" && s[10..15] == "Error"
    ensures s[9] == ' ' && s[15] == ' ' && s[16] == '('
  {
    PrefixParts();
    assert s[..17] == FirebasePrefix;
  }

  /** `\s*` runs over exactly one space before a non-space. */
  lemma OneSpace(s: string, i: nat)
    requires i + 1 < |s| && s[i] == ' ' && !IsSpace(s[i + 1])
    ensures SkipSpace(s, i) == i + 1
  {
  }

  /** `Firebase:` opens Firebase's rendering. */
  lemma FirebaseAt(s: string)
    requires FirebasePrefix <= s
    ensures WordAt(s, 0, "firebase:")
  {
    PrefixSlices(s);
    FirebaseWord();
    WordFrom(s, 0, "Firebase:", "firebase:");
  }

  /** `Error` follows it. */
  lemma ErrorAt(s: string)
    requires FirebasePrefix <= s
    ensures WordAt(s, 10, "error")
  {
    PrefixSlices(s);
    ErrorWord();
    WordFrom(s, 10, "Error", "error");
  }

  /** One space separates the words and one the parenthesis. */
  lemma SpacesAt(s: string)
    requires FirebasePrefix <= s
    ensures SkipSpace(s, 9) == 10 && SkipSpace(s, 15) == 16 && s[16] == '('
  {
    PrefixSlices(s);
    assert s[10] == s[10..15][0];
    OneSpace(s, 9);
    OneSpace(s, 15);
  }

  /** `[^)]+` stops at the first `)`. */
  lemma ParenAt(s: string, i: nat, j: nat)
    requires i <= j < |s| && s[j] == ')' && forall k :: i <= k < j ==> s[k] != ')'
    ensures SkipToParen(s, i) == j
  {
  }

  /** After the parenthesis, `[^)]+` runs over a code free of `)` up to
      the `)` that follows it. */
  lemma CodeEnd(prefix: string, code: string, rest: string)
    requires forall k :: 0 <= k < |code| ==> code[k] != ')'
    ensures SkipToParen(prefix + code + ")" + rest, |prefix|) == |prefix| + |code|
  {
    var s := prefix + code + ")" + rest;
    var n := |prefix|;
    forall k | n <= k < n + |code|
      ensures s[k] != ')'
    {
      assert s[k] == code[k - n];
    }
    ParenAt(s, n, n + |code|);
  }

  /** The span between the parenthesis and the `)` is the code. */
  lemma CodeSlice(prefix: string, code: string, rest: string)
    ensures (prefix + code + ")" + rest)[|prefix|..|prefix| + |code|] == code
  {
    var s := prefix + code + ")" + rest;
    assert s == prefix + code + (")" + rest);
    assert s[..|prefix| + |code|] == prefix + code;
  }

  /** The pattern matches Firebase's own rendering of an error at its
      start and captures exactly the code between the parentheses. */
  lemma CanonicalMatch(code: string, rest: string)
    requires code != [] && forall k :: 0 <= k < |code| ==> code[k] != ')'
    ensures MatchAt(FirebasePrefix + code + ")" + rest, 0) == Some(code)
  {
    var s := FirebasePrefix + code + ")" + rest;
    PrefixParts();
    assert FirebasePrefix <= s;
    FirebaseAt(s);
    ErrorAt(s);
    SpacesAt(s);
    CodeEnd(FirebasePrefix, code, rest);
    CodeSlice(FirebasePrefix, code, rest);
  }

  /** The lower-case `auth/`. */
  lemma AuthPrefix()
    ensures Lower("auth/") == "auth/"
  {
    LowerOfLowerCase("auth/");
  }

  /** An authentication error in Firebase's rendering gets the table's
      message for its code, in whatever case the code is written and
      whatever follows the parenthesis. */
  lemma {:induction false} AuthErrorMessage(authCode: string, rest: string)
    requires forall k :: 0 <= k < |authCode| ==> authCode[k] != ')'
    ensures SanitizeError(ErrorObject(FirebasePrefix + ("auth/" + authCode) + ")" + rest)) == AuthMessage(Lower(authCode))
  {
    var code := "auth/" + authCode;
    forall k | 0 <= k < |code|
      ensures code[k] != ')'
    {
      if k >= 5 {
        assert code[k] == authCode[k - 5];
      }
    }
    CanonicalMatch(code, rest);
    var m := FirebasePrefix + code + ")" + rest;
    assert FirstMatch(m) == Some(code);
    LowerAppend("auth/", authCode);
    AuthPrefix();
    assert Lower(code) == "auth/" + Lower(authCode);
    assert Lower(code)[..5] == "auth/";
    assert Lower(code)[5..] == Lower(authCode);
  }
}
