/**
 * Turning a TradingView ticker ("NSE:NIFTY1!", "MCX:CRUDEOILM1!") into the name of the
 * underlying used to search the instrument table (`normalize_symbol`, app/main.py).
 */
module Symbols {
  import opened Text

  /** MCX mini contracts and the parent contract each is traded under. */
  const McxSymbolMap: map<string, string> :=
    map["CRUDEOILM" := "CRUDEOIL", "GOLDM" := "GOLD", "SILVERM" := "SILVER", "COPPERM" := "COPPER"]

  /** `s` ends in one of TradingView's continuous-contract suffixes "1!", "2!", "3!". */
  predicate HasContractSuffix(s: string) {
    |s| >= 2 && s[|s| - 1] == '!' && s[|s| - 2] in {'1', '2', '3'}
  }

  predicate EndsWith(s: string, suffix: string) {
    |suffix| <= |s| && s[|s| - |suffix|..] == suffix
  }

  /** The first suffix of "1!", "2!", "3!" that `s` ends with is cut off; at most one is removed. */
  function DropContractSuffix(s: string): (r: string)
    ensures HasContractSuffix(s) ==> |r| == |s| - 2 && s == r + s[|s| - 2..]
    ensures !HasContractSuffix(s) ==> r == s
  {
    if EndsWith(s, "1!") then s[..|s| - 2]
    else if EndsWith(s, "2!") then s[..|s| - 2]
    else if EndsWith(s, "3!") then s[..|s| - 2]
    else s
  }

  /** Index of the first occurrence of `c` in `s`. */
  function FirstIndexOf(s: string, c: char): (k: nat)
    requires c in s
    ensures k < |s| && s[k] == c && c !in s[..k]
  {
    if s[0] == c then 0 else 1 + FirstIndexOf(s[1..], c)
  }

  /** `s.split(":", 1)[1]` when `s` holds a colon (the exchange prefix is dropped), else `s`. */
  function AfterFirstColon(s: string): (r: string)
    ensures ':' !in s ==> r == s
    ensures ':' in s ==> |r| < |s| && r == s[|s| - |r|..] && s[|s| - |r| - 1] == ':'
                         && ':' !in s[..|s| - |r| - 1]
  {
    if ':' in s then s[FirstIndexOf(s, ':') + 1..] else s
  }

  /** A mini-contract name becomes its parent's name, which is the mini name without its final 'M'. */
  function McxParent(s: string): (r: string)
    ensures s in McxSymbolMap ==> s == r + "M"
    ensures s !in McxSymbolMap ==> r == s
  {
    if s in McxSymbolMap then McxSymbolMap[s] else s
  }

  /** The name left once the contract suffix, the exchange prefix and the mini-contract
      distinction are gone; capitals stay capitals. */
  function UnderlyingName(upper: string): (r: string)
    requires NoLowercase(upper)
    ensures NoLowercase(r) && |r| <= |upper|
  {
    var bare := DropContractSuffix(upper);
    assert NoLowercase(bare) by { PrefixNoLowercase(upper, |bare|); }
    var name := AfterFirstColon(bare);
    assert NoLowercase(name) by { SuffixNoLowercase(bare, |bare| - |name|); }
    var r := McxParent(name);
    assert NoLowercase(r) by { PrefixNoLowercase(name, |r|); }
    r
  }

  /** `normalize_symbol`: strip, upper-case, drop one contract suffix, drop the exchange
      prefix up to the first colon, and map mini contracts to their parent. */
  function Normalize(tvSymbol: string): (r: string)
    ensures tvSymbol == [] ==> r == []
    ensures tvSymbol != [] ==> NoLowercase(r)
    ensures |r| <= |tvSymbol|
  {
    if tvSymbol == [] then tvSymbol else UnderlyingName(Upper(Strip(tvSymbol)))
  }

  lemma PrefixNoLowercase(s: string, n: nat)
    requires NoLowercase(s) && n <= |s|
    ensures NoLowercase(s[..n])
  {
    assert forall i :: 0 <= i < n ==> s[..n][i] == s[i];
  }

  lemma SuffixNoLowercase(s: string, n: nat)
    requires NoLowercase(s) && n <= |s|
    ensures NoLowercase(s[n..])
  {
    assert forall i :: 0 <= i < |s| - n ==> s[n..][i] == s[n + i];
  }

  /** A symbol that is already plain (no surrounding white space, capitals only, no exchange
      prefix, no contract suffix, not a mini contract) comes back unchanged. */
  lemma NormalizeKeepsPlainSymbol(s: string)
    requires s != [] && !IsSpace(s[0]) && !IsSpace(s[|s| - 1])
    requires NoLowercase(s) && ':' !in s && !HasContractSuffix(s) && s !in McxSymbolMap
    ensures Normalize(s) == s
  {
    assert Upper(s) == s;
  }

  /** "EXCHANGE:NAME<d>!" with a plain exchange and name normalises to the parent of NAME:
      exactly one suffix and the exchange prefix go. */
  lemma NormalizeTradingViewTicker(exchange: string, name: string, d: char)
    requires exchange != [] && !IsSpace(exchange[0]) && ':' !in exchange
    requires NoLowercase(exchange) && NoLowercase(name)
    requires d in {'1', '2', '3'}
    ensures Normalize(exchange + ":" + name + [d, '!']) == McxParent(name)
  {
    var x := exchange + ":" + name + [d, '!'];
    UnderlyingNameOfTicker(exchange, name, d);
    assert x[0] == exchange[0] && x[|x| - 1] == '!';
    NormalizeOfPlainText(x);
  }

  lemma UnderlyingNameOfTicker(exchange: string, name: string, d: char)
    requires ':' !in exchange && NoLowercase(exchange) && NoLowercase(name)
    requires d in {'1', '2', '3'}
    ensures NoLowercase(exchange + ":" + name + [d, '!'])
    ensures UnderlyingName(exchange + ":" + name + [d, '!']) == McxParent(name)
  {
    var y := exchange + ":" + name;
    var x := y + [d, '!'];
    ConcatNoLowercase(exchange, ":");
    ConcatNoLowercase(exchange + ":", name);
    ConcatNoLowercase(y, [d, '!']);
    assert DropContractSuffix(x) == y by {
      assert HasContractSuffix(x) && x[..|x| - 2] == y;
    }
    AfterExchangePrefix(exchange, name);
  }

  /** Text with no surrounding white space and no lower-case letters skips the first two steps. */
  lemma NormalizeOfPlainText(s: string)
    requires s != [] && !IsSpace(s[0]) && !IsSpace(s[|s| - 1]) && NoLowercase(s)
    ensures Normalize(s) == UnderlyingName(s)
  {
    UpperOfCapitals(s);
  }

  lemma ConcatNoLowercase(a: string, b: string)
    requires NoLowercase(a) && NoLowercase(b)
    ensures NoLowercase(a + b)
  {
    forall i | 0 <= i < |a + b| ensures !IsLowerAscii((a + b)[i]) {
      if i >= |a| { assert (a + b)[i] == b[i - |a|]; }
    }
  }

  lemma UpperOfCapitals(s: string)
    requires NoLowercase(s)
    ensures Upper(s) == s
  {
  }

  lemma AfterExchangePrefix(exchange: string, name: string)
    requires ':' !in exchange
    ensures AfterFirstColon(exchange + ":" + name) == name
  {
    var y := exchange + ":" + name;
    assert y[|exchange|] == ':';
    assert FirstIndexOf(y, ':') == |exchange|;
    assert y[|exchange| + 1..] == name;
  }

  // Concrete tickers. Each is stated for an `x` equal to the literal so that the solver
  // reasons from the general lemmas above instead of evaluating the literal.

  lemma NormalizeNseFuture(x: string)
    requires x == "NSE:NIFTY1!"
    ensures Normalize(x) == "NIFTY"
  {
    var exchange, name := "NSE", "NIFTY";
    assert exchange != [] && !IsSpace(exchange[0]) && ':' !in exchange && NoLowercase(exchange);
    assert NoLowercase(name) && McxParent(name) == name;
    assert exchange + ":" + name + ['1', '!'] == x;
    NormalizeTradingViewTicker(exchange, name, '1');
  }

  lemma NormalizeMcxMiniFuture(x: string)
    requires x == "MCX:CRUDEOILM1!"
    ensures Normalize(x) == "CRUDEOIL"
  {
    var exchange, name := "MCX", "CRUDEOILM";
    assert exchange != [] && !IsSpace(exchange[0]) && ':' !in exchange && NoLowercase(exchange);
    assert NoLowercase(name) && McxParent(name) == "CRUDEOIL";
    assert exchange + ":" + name + ['1', '!'] == x;
    NormalizeTradingViewTicker(exchange, name, '1');
  }

  /** Only one continuous-contract suffix is removed. */
  lemma NormalizeRemovesOneSuffix(x: string)
    requires x == "NIFTY1!1!"
    ensures Normalize(x) == "NIFTY1!"
  {
    var name := "NIFTY1!";
    assert x == name + ['1', '!'] && x[0] == 'N' && NoLowercase(x);
    assert ':' !in name && name !in McxSymbolMap;
    NormalizeOfPlainText(x);
    UnderlyingNameDropsOneSuffix(name, '1');
  }

  /** A suffix-carrying name without exchange prefix loses that one suffix and nothing more. */
  lemma UnderlyingNameDropsOneSuffix(name: string, d: char)
    requires NoLowercase(name) && ':' !in name && name !in McxSymbolMap && d in {'1', '2', '3'}
    ensures NoLowercase(name + [d, '!'])
    ensures UnderlyingName(name + [d, '!']) == name
  {
    var x := name + [d, '!'];
    ConcatNoLowercase(name, [d, '!']);
    assert HasContractSuffix(x) && x[..|x| - 2] == name;
  }

  /** A ticker of white space only normalises to the empty name. */
  lemma NormalizeBlank(x: string)
    requires x != [] && forall i :: 0 <= i < |x| ==> IsSpace(x[i])
    ensures Normalize(x) == ""
  {
    assert Strip(x) == [];
  }
}
