/** The guessing game of game01/app/page.js: the helpers `clampInt`,
    `randomInt`, `shortAddr` and `toHexChainId`, the `parseInt(hex, 16)` that
    reads chain ids back, and the page state with its `newRound`, `checkGuess`
    and `saveOnchain` handlers. */
module GuessGame {
  import opened Wrappers
  import opened IntMath

  const BASE_CHAIN_ID: nat := 8453
  const CONTRACT_ADDRESS: string := "0x622678862992c0A2414b536Bc4B8B391602BCf"
  const WRITE_METHOD: string := "play"
  /** Argument order of the write call: `(score, guess)` when set. */
  const SEND_SCORE_FIRST: bool := true
  /** `GAS_HEX = "0x249F0"`. */
  const GAS: nat := 0x249F0
  const ATTEMPTS_MAX: int := 7
  const SECRET_LO: int := 60
  const SECRET_HI: int := 120

  /** `Math.trunc`: rounds toward zero. */
  function Trunc(x: real): (y: int)
    ensures 0.0 <= x ==> 0 <= y && y as real <= x < y as real + 1.0
    ensures x < 0.0 ==> y <= 0 && y as real - 1.0 < x <= y as real
  {
    if x >= 0.0 then x.Floor else -((-x).Floor)
  }

  /** `clampInt(n, lo, hi)`, given the number `Number(n)` yields (None for NaN
      and the infinities): the truncated value when it lies in `[lo, hi]`,
      otherwise null. */
  function ClampInt(x: Option<real>, lo: int, hi: int): (r: Option<int>)
    ensures r.Some? ==> x.Some? && r.value == Trunc(x.value) && lo <= r.value <= hi
    ensures r.Some? ==> x.Some? && -1.0 < x.value - r.value as real < 1.0
    ensures r.None? <==> x.None? || Trunc(x.value) < lo || hi < Trunc(x.value)
  {
    match x
    case None => None
    case Some(v) =>
      var y := Trunc(v);
      if y < lo || y > hi then None else Some(y)
  }

  /** An integer already in `[lo, hi]` comes back unchanged. */
  lemma ClampIntKeepsInRange(n: int, lo: int, hi: int)
    requires lo <= n <= hi
    ensures ClampInt(Some(n as real), lo, hi) == Some(n)
  {
    assert Trunc(n as real) == n;
  }

  /** `randomInt(lo, hi)` for the value `u` that `Math.random()` returned. */
  function RandomInt(lo: int, hi: int, u: real): (r: int)
    requires lo <= hi && 0.0 <= u < 1.0
    ensures lo <= r <= hi
  {
    var n := (hi - lo + 1) as real;
    assert 0.0 <= u * n < n by {
      assert u * n <= u * n + (1.0 - u) * n;
    }
    lo + (u * n).Floor
  }

  /** `shortAddr(a)`: the first six characters, an ellipsis and the last four;
      the empty string stays empty. */
  function ShortAddr(a: string): (r: string)
    ensures a == [] <==> r == []
    ensures a != [] ==>
      var head, tail := Min(6, |a|), Min(4, |a|);
      |r| == head + 1 + tail && r[..head] == a[..head] && r[head] == '…' &&
      r[head + 1..] == a[|a| - tail..]
  {
    if a == [] then [] else a[..Min(6, |a|)] + "…" + a[|a| - Min(4, |a|)..]
  }

  predicate IsLowerHexDigit(c: char) { '0' <= c <= '9' || 'a' <= c <= 'f' }

  /** The base-16 digit for `d`, in lower case, as `Number.prototype.toString(16)` writes it. */
  function HexDigit(d: nat): (c: char)
    requires d < 16
    ensures IsLowerHexDigit(c)
  {
    if d < 10 then ('0' as int + d) as char else ('a' as int + d - 10) as char
  }

  /** `n.toString(16)`: lower-case base-16 digits, no leading zero. */
  function HexDigits(n: nat): (s: string)
    ensures |s| >= 1 && forall i :: 0 <= i < |s| ==> IsLowerHexDigit(s[i])
    ensures n > 0 ==> s[0] != '0'
    ensures n == 0 ==> s == "0"
  {
    if n < 16 then [HexDigit(n)] else HexDigits(n / 16) + [HexDigit(n % 16)]
  }

  /** `toHexChainId(dec)` for a non-negative chain id. */
  function ToHexChainId(n: nat): (s: string)
    ensures |s| >= 3 && s[..2] == "0x"
    ensures forall i :: 2 <= i < |s| ==> IsLowerHexDigit(s[i])
  {
    "0x" + HexDigits(n)
  }

  /** The value of a digit for `parseInt(_, 16)`, either case; None otherwise. */
  function DigitValue(c: char): (v: Option<nat>)
    ensures v.Some? ==> v.value < 16
  {
    if '0' <= c <= '9' then Some(c as int - '0' as int)
    else if 'a' <= c <= 'f' then Some(c as int - 'a' as int + 10)
    else if 'A' <= c <= 'F' then Some(c as int - 'A' as int + 10)
    else None
  }

  /** Length of the longest prefix of `s` made of base-16 digits. */
  function DigitRun(s: string): (k: nat)
    ensures k <= |s|
    ensures forall i :: 0 <= i < k ==> DigitValue(s[i]).Some?
    ensures k < |s| ==> DigitValue(s[k]).None?
  {
    if s == [] || DigitValue(s[0]).None? then 0 else 1 + DigitRun(s[1..])
  }

  /** The number the base-16 digits `ds` denote. */
  function Value(ds: string): nat
    requires forall i :: 0 <= i < |ds| ==> DigitValue(ds[i]).Some?
  {
    if ds == [] then 0 else 16 * Value(ds[..|ds| - 1]) + DigitValue(ds[|ds| - 1]).value
  }

  /** `parseInt(s, 16)`: an optional sign, an optional `0x`/`0X`, then the
      longest run of base-16 digits; None (NaN) when that run is empty. */
  function ParseIntHex(s: string): (r: Option<int>)
    ensures r.Some? ==> |s| > 0
    ensures r.Some? && r.value < 0 ==> s[0] == '-'
  {
    var u := Unprefixed(Unsigned(s));
    var k := DigitRun(u);
    if k == 0 then None
    else
      var v: int := Value(u[..k]);
      Some(if |s| > 0 && s[0] == '-' then -v else v)
  }

  /** The text after an optional leading `-` or `+`. */
  function Unsigned(s: string): string {
    if |s| > 0 && (s[0] == '-' || s[0] == '+') then s[1..] else s
  }

  /** The text after an optional leading `0x` or `0X`. */
  function Unprefixed(t: string): string {
    if |t| >= 2 && t[0] == '0' && (t[1] == 'x' || t[1] == 'X') then t[2..] else t
  }

  lemma {:induction false} HexDigitsValue(n: nat)
    ensures Value(HexDigits(n)) == n
    decreases n
  {
    var s := HexDigits(n);
    if n < 16 {
      assert s[..0] == [];
    } else {
      HexDigitsValue(n / 16);
      assert s[..|s| - 1] == HexDigits(n / 16);
    }
  }

  lemma {:induction false} DigitRunAll(s: string)
    requires forall i :: 0 <= i < |s| ==> IsLowerHexDigit(s[i])
    ensures DigitRun(s) == |s|
  {
    if s != [] {
      DigitRunAll(s[1..]);
    }
  }

  /** `c` and `d` are the same character up to ASCII case. */
  predicate SameUpToCase(c: char, d: char) {
    c == d || ('A' <= c <= 'Z' && d as int == c as int + 32) || ('A' <= d <= 'Z' && c as int == d as int + 32)
  }

  /** Two strings of one length that are equal up to ASCII case. */
  predicate EqualUpToCase(s: string, t: string) {
    |s| == |t| && forall i :: 0 <= i < |s| ==> SameUpToCase(s[i], t[i])
  }

  lemma DigitValueIgnoresCase(c: char, d: char)
    requires SameUpToCase(c, d)
    ensures DigitValue(c) == DigitValue(d)
  {
  }

  lemma {:induction false} DigitRunIgnoresCase(s: string, t: string)
    requires EqualUpToCase(s, t)
    ensures DigitRun(s) == DigitRun(t)
  {
    if s != [] {
      DigitValueIgnoresCase(s[0], t[0]);
      DigitRunIgnoresCase(s[1..], t[1..]);
    }
  }

  lemma {:induction false} ValueIgnoresCase(s: string, t: string)
    requires EqualUpToCase(s, t)
    requires forall i :: 0 <= i < |s| ==> DigitValue(s[i]).Some?
    ensures forall i :: 0 <= i < |t| ==> DigitValue(t[i]).Some?
    ensures Value(s) == Value(t)
  {
    forall i | 0 <= i < |t| ensures DigitValue(t[i]).Some? {
      DigitValueIgnoresCase(s[i], t[i]);
    }
    if s != [] {
      var n := |s| - 1;
      DigitValueIgnoresCase(s[n], t[n]);
      ValueIgnoresCase(s[..n], t[..n]);
    }
  }

  /** `parseInt(_, 16)` reads digits and the `0x` prefix the same in either
      case: `"0X2105"`, `"0x2105"` and `"0x2105".toUpperCase()` all give 8453. */
  lemma ParseIntHexIgnoresCase(s: string, t: string)
    requires EqualUpToCase(s, t)
    ensures ParseIntHex(s) == ParseIntHex(t)
  {
    SignIgnoresCase(s, t);
    PrefixIgnoresCase(Unsigned(s), Unsigned(t));
    var us, ut := Unprefixed(Unsigned(s)), Unprefixed(Unsigned(t));
    DigitRunIgnoresCase(us, ut);
    var k := DigitRun(us);
    if k > 0 {
      ValueIgnoresCase(us[..k], ut[..k]);
    }
  }

  lemma SignIgnoresCase(s: string, t: string)
    requires EqualUpToCase(s, t)
    ensures EqualUpToCase(Unsigned(s), Unsigned(t))
    ensures (|s| > 0 && s[0] == '-') == (|t| > 0 && t[0] == '-')
  {
    if |s| > 0 {
      assert SameUpToCase(s[0], t[0]);
    }
  }

  lemma PrefixIgnoresCase(s: string, t: string)
    requires EqualUpToCase(s, t)
    ensures EqualUpToCase(Unprefixed(s), Unprefixed(t))
  {
    if |s| >= 2 {
      assert SameUpToCase(s[0], t[0]) && SameUpToCase(s[1], t[1]);
    }
  }

  /** Round trip: `parseInt(toHexChainId(n), 16) == n`. */
  lemma ParseToHexChainId(n: nat)
    ensures ParseIntHex(ToHexChainId(n)) == Some(n)
  {
    var s := ToHexChainId(n);
    var ds := HexDigits(n);
    assert s[2..] == ds;
    DigitRunAll(ds);
    HexDigitsValue(n);
    assert ds[..|ds|] == ds;
  }

  /** Base mainnet: 8453 is written `0x2105`. */
  lemma BaseChainIdHex()
    ensures ToHexChainId(BASE_CHAIN_ID) == "0x2105"
  {
    assert HexDigits(2) == "2";
    assert HexDigits(33) == "21";
    assert HexDigits(528) == "210";
  }

  /** The score of a win on attempt `nextTries`: `max(1, attemptsMax + 1 - nextTries)`. */
  function WinScore(nextTries: int): (s: int)
    requires nextTries >= 1
    ensures 1 <= s <= ATTEMPTS_MAX
    ensures nextTries <= ATTEMPTS_MAX ==> s + nextTries == ATTEMPTS_MAX + 1
    ensures nextTries >= ATTEMPTS_MAX ==> s == 1
  {
    Max(1, ATTEMPTS_MAX + 1 - nextTries)
  }

  /** A win in fewer attempts never scores less. */
  lemma WinScoreMonotone(a: int, b: int)
    requires 1 <= a <= b
    ensures WinScore(a) >= WinScore(b)
  {
  }

  /** The text `hint` shows. */
  datatype Hint =
    | Blank            // "-"
    | EnterNumber      // the guess is not a number in 60..120
    | Correct          // guessed
    | Higher           // the secret is larger
    | Lower            // the secret is smaller
    | OutOfTries(secret: int)

  /** Why `saveOnchain` stopped. */
  datatype Fault = NoWallet | NotConnected | NoWin | WrongNetwork | WalletFailed

  /** The wallet behind `window.ethereum`, by its answers to `eth_chainId` and
      `eth_sendTransaction` (None: the request throws). */
  datatype Wallet = Wallet(chainIdReply: Option<string>, sendReply: Option<string>)

  /** The `eth_sendTransaction` parameters; `args` are the two `uint256`
      arguments that `encodeFunctionData` packs into `data`. */
  datatype TxRequest = TxRequest(
    from: string, to: string, functionName: string, args: seq<int>, gas: nat, value: nat, chainId: string)

  /** The page's React state. */
  class Game {
    var addr: string
    var chainId: Option<int>      // null, or NaN from parseInt, is None
    var secretK: int
    var guess: Option<real>       // Number() of the text in the guess box
    var hint: Hint
    var tries: nat
    var rounds: nat
    var wins: nat
    var lastWinGuess: Option<int>
    var lastWinScore: Option<int>
    var savedTx: string
    var err: Option<Fault>        // "" is None

    /** The secret lies in 60..120, and a recorded win has both its guess
        (in 60..120) and its score (in 1..7). */
    ghost predicate Valid()
      reads this
    {
      SECRET_LO <= secretK <= SECRET_HI && rounds >= 1 &&
      (lastWinGuess.Some? <==> lastWinScore.Some?) &&
      (lastWinGuess.Some? ==> SECRET_LO <= lastWinGuess.value <= SECRET_HI) &&
      (lastWinScore.Some? ==> 1 <= lastWinScore.value <= ATTEMPTS_MAX)
    }

    /** The initial state; `u` is the value `Math.random()` returned. The empty
        guess box reads as `Number("") == 0`. */
    constructor (u: real)
      requires 0.0 <= u < 1.0
      ensures Valid()
      ensures addr == "" && chainId.None? && guess == Some(0.0) && hint == Blank
      ensures tries == 0 && rounds == 1 && wins == 0
      ensures lastWinGuess.None? && lastWinScore.None? && savedTx == "-" && err.None?
    {
      addr := "";
      chainId := None;
      secretK := RandomInt(SECRET_LO, SECRET_HI, u);
      guess := Some(0.0);
      hint := Blank;
      tries := 0;
      rounds := 1;
      wins := 0;
      lastWinGuess := None;
      lastWinScore := None;
      savedTx := "-";
      err := None;
    }

    /** `newRound`: a fresh secret, the counters of the round reset. */
    method NewRound(u: real)
      requires Valid() && 0.0 <= u < 1.0
      modifies this
      ensures Valid()
      ensures err.None? && hint == Blank && tries == 0 && guess == Some(0.0)
      ensures rounds == old(rounds) + 1
      ensures wins == old(wins) && lastWinGuess == old(lastWinGuess) && lastWinScore == old(lastWinScore)
      ensures savedTx == old(savedTx) && addr == old(addr) && chainId == old(chainId)
    {
      err := None;
      hint := Blank;
      tries := 0;
      guess := Some(0.0);
      secretK := RandomInt(SECRET_LO, SECRET_HI, u);
      rounds := rounds + 1;
    }

    /** `checkGuess`. */
    method CheckGuess()
      requires Valid()
      modifies this
      ensures Valid() && err.None?
      ensures secretK == old(secretK) && guess == old(guess) && rounds == old(rounds)
      ensures addr == old(addr) && chainId == old(chainId)
      ensures var g := ClampInt(old(guess), SECRET_LO, SECRET_HI);
        (g.None? ==>
           hint == EnterNumber && tries == old(tries) && wins == old(wins) &&
           lastWinGuess == old(lastWinGuess) && lastWinScore == old(lastWinScore) && savedTx == old(savedTx)) &&
        (g.Some? ==> tries == old(tries) + 1) &&
        (g.Some? && g.value == secretK ==>
           hint == Correct && wins == old(wins) + 1 &&
           lastWinGuess == Some(g.value) && lastWinScore == Some(WinScore(tries)) && savedTx == "-") &&
        (g.Some? && g.value != secretK ==>
           wins == old(wins) && lastWinGuess == old(lastWinGuess) &&
           lastWinScore == old(lastWinScore) && savedTx == old(savedTx) &&
           hint == if tries >= ATTEMPTS_MAX then OutOfTries(secretK)
                   else if g.value < secretK then Higher else Lower)
    {
      err := None;
      var g := ClampInt(guess, SECRET_LO, SECRET_HI);
      if g.None? {
        hint := EnterNumber;
        return;
      }
      var nextTries := tries + 1;
      tries := nextTries;
      if g.value == secretK {
        var score := WinScore(nextTries);
        hint := Correct;
        wins := wins + 1;
        lastWinGuess := g;
        lastWinScore := Some(score);
        savedTx := "-";
        return;
      }
      hint := if g.value < secretK then Higher else Lower;
      if nextTries >= ATTEMPTS_MAX {
        hint := OutOfTries(secretK);
      }
    }

    /** `saveOnchain`: the guards in order, then the transaction request. */
    method SaveOnchain(w: Option<Wallet>) returns (request: Option<TxRequest>)
      requires Valid()
      modifies this
      ensures Valid()
      ensures secretK == old(secretK) && guess == old(guess) && hint == old(hint) && tries == old(tries)
      ensures rounds == old(rounds) && wins == old(wins) && addr == old(addr)
      ensures lastWinGuess == old(lastWinGuess) && lastWinScore == old(lastWinScore)
      ensures request.Some? <==>
        w.Some? && addr != "" && lastWinGuess.Some? && w.value.chainIdReply.Some? &&
        ParseIntHex(w.value.chainIdReply.value) == Some(BASE_CHAIN_ID)
      ensures !(w.Some? && addr != "" && lastWinGuess.Some?) ==> chainId == old(chainId)
      ensures w.None? ==> err == Some(NoWallet)
      ensures w.Some? && addr == "" ==> err == Some(NotConnected)
      ensures w.Some? && addr != "" && lastWinGuess.None? ==> err == Some(NoWin)
      ensures w.Some? && addr != "" && lastWinGuess.Some? ==>
        var reply := w.value.chainIdReply;
        (reply.None? ==> err == Some(WalletFailed) && chainId == old(chainId)) &&
        (reply.Some? ==> chainId == ParseIntHex(reply.value)) &&
        (reply.Some? && chainId != Some(BASE_CHAIN_ID) ==> err == Some(WrongNetwork))
      ensures request.None? ==> err.Some? && savedTx == old(savedTx)
      ensures request.Some? ==>
        var score, g := lastWinScore.value, lastWinGuess.value;
        request.value == TxRequest(addr, CONTRACT_ADDRESS, WRITE_METHOD,
                                   if SEND_SCORE_FIRST then [score, g] else [g, score],
                                   GAS, 0, "0x2105") &&
        (err.None? <==> w.value.sendReply.Some?) &&
        (w.value.sendReply.None? ==> err == Some(WalletFailed)) &&
        savedTx == if w.value.sendReply.Some? then w.value.sendReply.value else old(savedTx)
    {
      err := None;
      if w.None? {
        err := Some(NoWallet);
        return None;
      }
      if addr == "" {
        err := Some(NotConnected);
        return None;
      }
      if lastWinGuess.None? || lastWinScore.None? {
        err := Some(NoWin);
        return None;
      }
      var reply := w.value.chainIdReply;
      if reply.None? {
        err := Some(WalletFailed);
        return None;
      }
      var id := ParseIntHex(reply.value);
      chainId := id;
      if id != Some(BASE_CHAIN_ID) {
        err := Some(WrongNetwork);
        return None;
      }
      var score, g := lastWinScore.value, lastWinGuess.value;
      var a := if SEND_SCORE_FIRST then score else g;
      var b := if SEND_SCORE_FIRST then g else score;
      BaseChainIdHex();
      request := Some(TxRequest(addr, CONTRACT_ADDRESS, WRITE_METHOD, [a, b], GAS, 0, ToHexChainId(BASE_CHAIN_ID)));
      match w.value.sendReply {
        case None =>
          err := Some(WalletFailed);
        case Some(txHash) =>
          savedTx := txHash;
      }
    }
  }
}
