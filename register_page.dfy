/** The sign-up page: a password-strength score out of five, its label and
    colour, and a submit handler that registers only a password of full
    strength and moves to the login page only after a successful
    registration. */
module RegisterPage {
  import opened Common
  import opened AuthStore

  /** `pwd.length`: JavaScript counts UTF-16 code units, two for a
      character outside the Basic Multilingual Plane. */
  function Utf16Length(s: string): (n: nat)
    ensures |s| <= n <= 2 * |s|
  {
    if |s| == 0 then 0
    else Utf16Length(s[..|s| - 1]) + (if s[|s| - 1] as int >= 0x10000 then 2 else 1)
  }

  predicate IsUpper(c: char) { 'A' <= c <= 'Z' }
  predicate IsLower(c: char) { 'a' <= c <= 'z' }
  predicate IsDigit(c: char) { '0' <= c <= '9' }

  /** `/[^A-Za-z0-9]/`: anything but an ASCII letter or digit. */
  predicate IsSymbol(c: char) { !IsUpper(c) && !IsLower(c) && !IsDigit(c) }

  predicate HasUpper(s: string) { exists i :: 0 <= i < |s| && IsUpper(s[i]) }
  predicate HasLower(s: string) { exists i :: 0 <= i < |s| && IsLower(s[i]) }
  predicate HasDigit(s: string) { exists i :: 0 <= i < |s| && IsDigit(s[i]) }
  predicate HasSymbol(s: string) { exists i :: 0 <= i < |s| && IsSymbol(s[i]) }
  predicate LongEnough(s: string) { Utf16Length(s) >= 8 }

  /** The five criteria of a strong password. */
  function Criteria(pwd: string): seq<bool> {
    [LongEnough(pwd), HasUpper(pwd), HasLower(pwd), HasDigit(pwd), HasSymbol(pwd)]
  }

  function CountTrue(bs: seq<bool>): (n: nat)
    ensures n <= |bs|
    ensures n == |bs| <==> forall i :: 0 <= i < |bs| ==> bs[i]
    ensures n == 0 <==> forall i :: 0 <= i < |bs| ==> !bs[i]
  {
    if |bs| == 0 then 0
    else
      var rest := CountTrue(bs[1..]);
      assert forall i :: 1 <= i < |bs| ==> bs[i] == bs[1..][i - 1];
      (if bs[0] then 1 else 0) + rest
  }

  function Point(b: bool): nat {
    if b then 1 else 0
  }

  /** Counting five criteria is adding their points. */
  lemma {:induction false} CountFive(bs: seq<bool>)
    requires |bs| == 5
    ensures CountTrue(bs) == Point(bs[0]) + Point(bs[1]) + Point(bs[2]) + Point(bs[3]) + Point(bs[4])
  {
    var b1 := bs[1..];
    var b2 := b1[1..];
    var b3 := b2[1..];
    var b4 := b3[1..];
    assert b4[1..] == [];
    assert CountTrue(b4) == Point(bs[4]);
    assert CountTrue(b3) == Point(bs[3]) + Point(bs[4]);
    assert CountTrue(b2) == Point(bs[2]) + Point(bs[3]) + Point(bs[4]);
    assert CountTrue(b1) == Point(bs[1]) + Point(bs[2]) + Point(bs[3]) + Point(bs[4]);
  }

  /** A string of characters from the Basic Multilingual Plane has as many
      code units as characters. */
  lemma {:induction false} BmpLength(s: string)
    requires forall i :: 0 <= i < |s| ==> s[i] as int < 0x10000
    ensures Utf16Length(s) == |s|
  {
    if |s| > 0 {
      BmpLength(s[..|s| - 1]);
    }
  }

  /** The score the page shows: 0 for an empty password, otherwise one
      point per satisfied criterion. */
  function Strength(pwd: string): nat {
    if pwd == "" then 0 else CountTrue(Criteria(pwd))
  }

  predicate AllCriteria(pwd: string) {
    LongEnough(pwd) && HasUpper(pwd) && HasLower(pwd) && HasDigit(pwd) && HasSymbol(pwd)
  }

  /** `calculateStrength`: a point added for each test the password
      passes, in the page's order. */
  method CalculateStrength(pwd: string) returns (score: int)
    ensures score == Strength(pwd)
  {
    if pwd == "" {
      return 0;
    }
    CountFive(Criteria(pwd));
    score := 0;
    if Utf16Length(pwd) >= 8 {
      score := score + 1;
    }
    if HasUpper(pwd) {
      score := score + 1;
    }
    if HasLower(pwd) {
      score := score + 1;
    }
    if HasDigit(pwd) {
      score := score + 1;
    }
    if HasSymbol(pwd) {
      score := score + 1;
    }
  }

  /** Every character is an upper-case letter, a lower-case letter, a digit
      or a symbol, so a non-empty password scores at least one. */
  lemma {:induction false} NonEmptyScores(pwd: string)
    requires pwd != ""
    ensures Strength(pwd) >= 1
  {
    var c := pwd[0];
    if IsUpper(c) {
      assert HasUpper(pwd);
      assert Criteria(pwd)[1];
    } else if IsLower(c) {
      assert HasLower(pwd);
      assert Criteria(pwd)[2];
    } else if IsDigit(c) {
      assert HasDigit(pwd);
      assert Criteria(pwd)[3];
    } else {
      assert HasSymbol(pwd);
      assert Criteria(pwd)[4];
    }
  }

  /** The score lies in 0..5, is 0 only for the empty password, and is 5
      exactly when all five criteria hold. */
  lemma StrengthBounds(pwd: string)
    ensures 0 <= Strength(pwd) <= 5
    ensures Strength(pwd) == 0 <==> pwd == ""
    ensures Strength(pwd) == 5 <==> AllCriteria(pwd)
  {
    if pwd != "" {
      NonEmptyScores(pwd);
      CountFive(Criteria(pwd));
    }
  }

  /** Eight ASCII characters mixing the four kinds make a strong
      password. */
  lemma StrongExample()
    ensures Strength("Abcdef1!") == 5
  {
    var p := "Abcdef1!";
    assert IsUpper(p[0]) && IsLower(p[1]) && IsDigit(p[6]) && IsSymbol(p[7]);
    BmpLength(p);
    StrengthBounds(p);
  }

  /** Seven characters are not enough, whatever they mix. */
  lemma ShortExample()
    ensures Strength("Abcde1!") == 4
  {
    var p := "Abcde1!";
    assert IsUpper(p[0]) && IsLower(p[1]) && IsDigit(p[5]) && IsSymbol(p[6]);
    BmpLength(p);
    CountFive(Criteria(p));
  }

  /** `getStrengthLabel` */
  function Label(strength: int): string {
    if strength == 0 then ""
    else if strength <= 2 then "Weak"
    else if strength <= 4 then "Medium"
    else "Strong"
  }

  /** `getStrengthColor` */
  function Colour(strength: int): string {
    if strength <= 2 then "var(--danger)"
    else if strength <= 4 then "#FFBB28"
    else "var(--success)"
  }

  /** The label and the colour agree band by band: danger for no label and
      "Weak", orange for "Medium", success for "Strong", which only a
      password meeting every criterion gets. */
  lemma BandsAgree(pwd: string)
    ensures var s := Strength(pwd);
      && (Label(s) == "" <==> pwd == "")
      && (Colour(s) == "var(--danger)" <==> Label(s) == "" || Label(s) == "Weak")
      && (Colour(s) == "#FFBB28" <==> Label(s) == "Medium")
      && (Colour(s) == "var(--success)" <==> Label(s) == "Strong")
      && (Label(s) == "Strong" <==> AllCriteria(pwd))
  {
    StrengthBounds(pwd);
  }

  /** The sign-up button is disabled while a request runs or the password
      is not of full strength. */
  predicate SubmitDisabled(isLoading: bool, strength: int) {
    isLoading || strength < 5
  }

  /** `onSubmit`: a password below full strength stops the handler before
      any request; otherwise `register` runs, and the page moves to /login
      only when it returned true. */
  function SubmitSpec(st: AuthState, name: string, email: string, pwd: string, reply: Reply): (AuthState, bool) {
    if Strength(pwd) < 5 then (st, false)
    else
      var (r, out) := RegisterSpec(st, name, email, pwd, reply);
      (r, out == Returned(true))
  }

  /** A weak password changes nothing and sends nothing; navigation to the
      login page happens exactly for a strong password whose registration
      was answered. */
  lemma SubmitGate(st: AuthState, name: string, email: string, pwd: string, reply: Reply)
    ensures !AllCriteria(pwd) ==> SubmitSpec(st, name, email, pwd, reply) == (st, false)
    ensures SubmitSpec(st, name, email, pwd, reply).1 <==> AllCriteria(pwd) && reply.Answered?
    ensures AllCriteria(pwd) ==>
      SubmitSpec(st, name, email, pwd, reply).0.issued == st.issued + [PostRegister(name, email, pwd)]
    ensures !SubmitDisabled(false, Strength(pwd)) <==> AllCriteria(pwd)
  {
    StrengthBounds(pwd);
    RegisterOutcomes(st, name, email, pwd, reply);
  }

  /** The submit handler, scoring the password and calling the store. */
  method Submit(store: Store, name: string, email: string, pwd: string, reply: Reply) returns (navigateToLogin: bool)
    modifies store
    ensures (store.Snapshot(), navigateToLogin) == SubmitSpec(old(store.Snapshot()), name, email, pwd, reply)
  {
    var strength := CalculateStrength(pwd);
    if strength < 5 {
      return false;
    }
    var outcome := store.Register(name, email, pwd, reply);
    navigateToLogin := outcome == Returned(true);
  }
}
