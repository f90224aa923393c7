/** Users, intents and validated trades as the pipeline passes them along. */
module Trade {
  import opened Prelude

  datatype Action = BuyToOpen | SellToClose | Skip
  datatype AssetClass = OptionContracts | Futures
  datatype OptionType = Call | Put
  datatype Mode = Paper | Live
  datatype Broker = Schwab | Tradier | Webull | NinjaTrader

  /** Days, as an ordinal. */
  type Date = int

  datatype Intent = Intent(
    action: Action, assetClass: AssetClass, underlying: string, optionType: OptionType,
    strike: real, expiration: Option<Date>, quantity: int, limitPrice: Option<real>,
    confidence: real, rationale: string, takeProfitPct: Option<real>, notionalUsd: Option<real>)

  datatype ValidatedTrade = ValidatedTrade(
    action: Action, underlying: string, optionType: OptionType, strike: real, expiration: Date,
    quantity: int, limitPrice: Option<real>, rationale: string, contractSymbol: string,
    bid: Option<real>, ask: Option<real>, openInterest: Option<int>, errors: seq<string>,
    takeProfitPct: Option<real>, notionalUsd: Option<real>)

  datatype OptionContract = OptionContract(
    symbol: string, underlying: string, optionType: OptionType, strike: real, expiration: Date,
    bid: Option<real>, ask: Option<real>, openInterest: Option<int>)

  datatype User = User(
    id: UserId, maxContracts: int, allowedTickers: string, filterPrompt: Option<string>,
    defaultMode: Mode, liveTradingEnabled: bool, sizingMode: string, fixedContracts: int,
    riskPercent: real, defaultBroker: Option<Broker>)

  /** `default_mode`, downgraded to paper without the live flag. */
  function EffectiveMode(user: User): (mode: Mode)
    ensures mode.Live? <==> user.defaultMode.Live? && user.liveTradingEnabled
  {
    if user.defaultMode.Live? && !user.liveTradingEnabled then Paper else user.defaultMode
  }

  /** Truthiness of an optional decimal: zero counts as missing. */
  function OrElse(a: Option<real>, b: Option<real>): Option<real> {
    if a.Some? && a.value != 0.0 then a else b
  }

  // ----- text -----

  function UpperChar(c: char): (d: char)
    ensures d as int == if 97 <= c as int <= 122 then c as int - 32 else c as int
  {
    if 'a' <= c <= 'z' then c - 'a' + 'A' else c
  }

  function Upper(s: string): string {
    if s == "" then "" else [UpperChar(s[0])] + Upper(s[1..])
  }

  predicate IsSpace(c: char) {
    c == ' ' || c == '\t' || c == '\n' || c == '\r'
  }

  function StripLeft(s: string): string {
    if s != "" && IsSpace(s[0]) then StripLeft(s[1..]) else s
  }

  function StripRight(s: string): string {
    if s != "" && IsSpace(s[|s| - 1]) then StripRight(s[..|s| - 1]) else s
  }

  function Strip(s: string): string {
    StripRight(StripLeft(s))
  }

  predicate Contains(text: string, word: string) {
    exists i :: 0 <= i <= |text| && word <= text[i..]
  }

  function NatText(n: nat): string {
    if n < 10 then ['0' + n as char] else NatText(n / 10) + ['0' + (n % 10) as char]
  }

  function IntText(n: int): string {
    if n < 0 then "-" + NatText(-n) else NatText(n)
  }

  // ----- what these mean -----

  /** A decimal text read back. */
  function ValueOf(digits: string): int {
    if digits == "" then 0 else 10 * ValueOf(digits[..|digits| - 1]) + (digits[|digits| - 1] as int - '0' as int)
  }

  lemma {:induction false} NatTextReadsBack(n: nat)
    ensures NatText(n) != "" && ValueOf(NatText(n)) == n
    ensures forall i :: 0 <= i < |NatText(n)| ==> '0' <= NatText(n)[i] <= '9'
  {
    if n < 10 {
      assert NatText(n)[..0] == "";
    } else {
      NatTextReadsBack(n / 10);
      assert NatText(n)[..|NatText(n)| - 1] == NatText(n / 10);
    }
  }

  /** A number in a message reads back as that number. */
  lemma IntTextReadsBack(n: int)
    ensures n >= 0 ==> ValueOf(IntText(n)) == n
    ensures n < 0 ==> IntText(n) != "" && IntText(n)[0] == '-' && ValueOf(IntText(n)[1..]) == -n
  {
    NatTextReadsBack(if n < 0 then -n else n);
    assert n < 0 ==> IntText(n)[1..] == NatText(-n);
  }

  predicate AllBlank(s: string) {
    forall i :: 0 <= i < |s| ==> s[i] in {' ', '\t', '\n', '\r'}
  }

  lemma {:induction false} StripLeftDropsBlanks(s: string) returns (left: string)
    ensures s == left + StripLeft(s) && AllBlank(left)
    ensures StripLeft(s) != "" ==> StripLeft(s)[0] !in {' ', '\t', '\n', '\r'}
  {
    left := "";
    if s != "" && IsSpace(s[0]) {
      var rest := StripLeftDropsBlanks(s[1..]);
      left := [s[0]] + rest;
      assert s == [s[0]] + s[1..];
    }
  }

  lemma {:induction false} StripRightDropsBlanks(s: string) returns (right: string)
    ensures s == StripRight(s) + right && AllBlank(right)
    ensures StripRight(s) != "" ==> StripRight(s)[|StripRight(s)| - 1] !in {' ', '\t', '\n', '\r'}
    decreases |s|
  {
    right := "";
    if s != "" && IsSpace(s[|s| - 1]) {
      var rest := StripRightDropsBlanks(s[..|s| - 1]);
      right := rest + [s[|s| - 1]];
      assert s == s[..|s| - 1] + [s[|s| - 1]];
    }
  }

  /** Stripping takes blanks off both ends and nothing else, and leaves none there. */
  lemma StripIsTheCore(s: string) returns (left: string, right: string)
    ensures s == left + Strip(s) + right && AllBlank(left) && AllBlank(right)
    ensures Strip(s) != "" ==> Strip(s)[|Strip(s)| - 1] !in {' ', '\t', '\n', '\r'} && Strip(s)[0] !in {' ', '\t', '\n', '\r'}
  {
    left := StripLeftDropsBlanks(s);
    right := StripRightDropsBlanks(StripLeft(s));
    assert Strip(s) != "" ==> Strip(s)[0] == StripLeft(s)[0];
  }

  /** Only a text of blanks strips to nothing. */
  lemma BlankIff(s: string)
    ensures Strip(s) == "" <==> AllBlank(s)
  {
    var left, right := StripIsTheCore(s);
    if Strip(s) != "" {
      assert s[|left|] == Strip(s)[0];
    }
  }
}
