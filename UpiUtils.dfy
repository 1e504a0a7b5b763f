/**
 * UPI payment links: the `upi://pay?…` URI handed to the QR-code renderer, and the check a
 * store's UPI id must pass before it is saved.
 */
module UpiUtils {
  import opened Wrappers
  import opened Text
  import Numeric
  import FormUrlEncoded
  import Seqs

  /**
   * The payment a link requests. `amount`, `transactionNote` and `merchantCode` are optional;
   * an empty string counts as absent, as does an amount of 0.
   */
  datatype UpiPayment = UpiPayment(
    payeeName: string,
    payeeVpa: string,
    amount: Option<real>,
    transactionNote: Option<string>,
    merchantCode: Option<string>)

  const UrlPrefix: string := "upi://pay?"

  /** A JavaScript string that is present and not empty. */
  predicate Truthy(s: Option<string>)
  {
    s.Some? && s.value != ""
  }

  predicate HasAmount(p: UpiPayment)
  {
    p.amount.Some? && p.amount.value != 0.0
  }

  /**
   * The query parameters, in the order they are appended. `formatAmount` stands for
   * `Number.prototype.toString`.
   */
  function UpiParams(p: UpiPayment, formatAmount: real -> string): seq<(string, string)>
  {
    [("pa", p.payeeVpa), ("pn", p.payeeName)]
    + (if HasAmount(p) then [("am", formatAmount(p.amount.value))] else [])
    + (if Truthy(p.transactionNote) then [("tn", p.transactionNote.value)] else [])
    + (if Truthy(p.merchantCode) then [("mc", p.merchantCode.value)] else [])
    + [("cu", "INR")]
  }

  /**
   * `generateUPIUrl`: the link starts with `upi://pay?`, and reading its query back with the
   * application/x-www-form-urlencoded parser gives exactly the parameters, names and values,
   * in order.
   */
  function GenerateUpiUrl(p: UpiPayment, formatAmount: real -> string): (url: string)
    ensures |url| >= |UrlPrefix| && url[..|UrlPrefix|] == UrlPrefix
    ensures FormUrlEncoded.Parse(url[|UrlPrefix|..]) == Some(UpiParams(p, formatAmount))
  {
    var params := UpiParams(p, formatAmount);
    FormUrlEncoded.ParseSerialize(params);
    var url := UrlPrefix + FormUrlEncoded.Serialize(params);
    assert url[|UrlPrefix|..] == FormUrlEncoded.Serialize(params);
    url
  }

  /** The value of the first parameter called `name`. */
  function Lookup(params: seq<(string, string)>, name: string): Option<string>
  {
    if params == [] then None
    else if params[0].0 == name then Some(params[0].1)
    else Lookup(params[1..], name)
  }

  /** The parameter names the source can append. */
  const ParamNames: set<string> := {"pa", "pn", "am", "tn", "mc", "cu"}

  /**
   * The shape of the query: `pa` first and `pn` second, always (an empty payee name included);
   * `cu=INR` last; one parameter per present optional field; no name outside the fixed set.
   */
  lemma UpiParamsShape(p: UpiPayment, formatAmount: real -> string)
    ensures var params := UpiParams(p, formatAmount);
      && |params| == 3 + (if HasAmount(p) then 1 else 0) + (if Truthy(p.transactionNote) then 1 else 0)
                       + (if Truthy(p.merchantCode) then 1 else 0)
      && params[0] == ("pa", p.payeeVpa)
      && params[1] == ("pn", p.payeeName)
      && params[|params| - 1] == ("cu", "INR")
      && (forall i :: 0 <= i < |params| ==> params[i].0 in ParamNames)
  {
  }

  /**
   * What a payment app reads from the link: `am` exactly when there is a non-zero amount, `tn`
   * and `mc` exactly when they are non-empty, and `cu` always `INR`.
   */
  lemma UpiParamsLookup(p: UpiPayment, formatAmount: real -> string)
    ensures var params := UpiParams(p, formatAmount);
      && Lookup(params, "am") == (if HasAmount(p) then Some(formatAmount(p.amount.value)) else None)
      && Lookup(params, "tn") == (if Truthy(p.transactionNote) then p.transactionNote else None)
      && Lookup(params, "mc") == (if Truthy(p.merchantCode) then p.merchantCode else None)
      && Lookup(params, "cu") == Some("INR")
  {
    var base := [("pa", p.payeeVpa), ("pn", p.payeeName)];
    assert base[1..][1..] == [];
    LookupInParams(p, formatAmount, "am");
    LookupInParams(p, formatAmount, "tn");
    LookupInParams(p, formatAmount, "mc");
    LookupInParams(p, formatAmount, "cu");
  }

  /** `a` if it holds a value, else `b`. */
  function OrElse(a: Option<string>, b: Option<string>): Option<string>
  {
    if a.Some? then a else b
  }

  /** Looking up one name in the query looks through its five parts in order. */
  lemma LookupInParams(p: UpiPayment, formatAmount: real -> string, name: string)
    ensures Lookup(UpiParams(p, formatAmount), name)
         == OrElse(Lookup([("pa", p.payeeVpa), ("pn", p.payeeName)], name),
            OrElse(Lookup(if HasAmount(p) then [("am", formatAmount(p.amount.value))] else [], name),
            OrElse(Lookup(if Truthy(p.transactionNote) then [("tn", p.transactionNote.value)] else [], name),
            OrElse(Lookup(if Truthy(p.merchantCode) then [("mc", p.merchantCode.value)] else [], name),
                   Lookup([("cu", "INR")], name)))))
  {
    var base := [("pa", p.payeeVpa), ("pn", p.payeeName)];
    var am := if HasAmount(p) then [("am", formatAmount(p.amount.value))] else [];
    var tn := if Truthy(p.transactionNote) then [("tn", p.transactionNote.value)] else [];
    var mc := if Truthy(p.merchantCode) then [("mc", p.merchantCode.value)] else [];
    var cu := [("cu", "INR")];
    assert UpiParams(p, formatAmount) == base + (am + (tn + (mc + cu))) by {
      assert base + am + tn + mc + cu == base + (am + (tn + (mc + cu)));
    }
    LookupAppend(base, am + (tn + (mc + cu)), name);
    LookupAppend(am, tn + (mc + cu), name);
    LookupAppend(tn, mc + cu, name);
    LookupAppend(mc, cu, name);
  }

  /** Looking up in a concatenation looks in the first part, then the second. */
  lemma {:induction false} LookupAppend(a: seq<(string, string)>, b: seq<(string, string)>, name: string)
    ensures Lookup(a + b, name) == OrElse(Lookup(a, name), Lookup(b, name))
  {
    if a == [] {
      assert a + b == b;
    } else {
      assert (a + b)[0] == a[0];
      assert (a + b)[1..] == a[1..] + b;
      LookupAppend(a[1..], b, name);
    }
  }

  /** The transaction note of the payment QR code: `Bill #<id>` for a bill, else `Payment`. */
  function PaymentNote(billId: Option<int>): (note: string)
    ensures billId.Some? && billId.value != 0 ==> note == "Bill #" + Numeric.IntToDecimal(billId.value)
    ensures billId.None? || billId.value == 0 ==> note == "Payment"
    ensures |note| > 0
  {
    if billId.Some? && billId.value != 0 then "Bill #" + Numeric.IntToDecimal(billId.value) else "Payment"
  }

  /** The payment the QR code encodes: the store's name and UPI id, the amount and the note. */
  function QrPayment(storeName: string, upiId: string, amount: real, billId: Option<int>): UpiPayment
  {
    UpiPayment(storeName, upiId, Some(amount), Some(PaymentNote(billId)), None)
  }

  /**
   * The QR code's link always carries the payment note as `tn` (the note is never empty), and
   * never a merchant code.
   */
  lemma QrLinkCarriesNote(storeName: string, upiId: string, amount: real, billId: Option<int>,
                          formatAmount: real -> string)
    ensures var params := UpiParams(QrPayment(storeName, upiId, amount, billId), formatAmount);
      && Lookup(params, "tn") == Some(PaymentNote(billId))
      && Lookup(params, "mc") == None
  {
    UpiParamsLookup(QrPayment(storeName, upiId, amount, billId), formatAmount);
  }

  // ---------------------------------------------------------------- UPI id check

  /** A character of `[a-zA-Z0-9._-]`, the handle before the `@`. */
  predicate IsHandleChar(c: char)
  {
    IsAsciiAlnum(c) || c == '.' || c == '_' || c == '-'
  }

  predicate AllHandle(s: string)
  {
    forall j :: 0 <= j < |s| ==> IsHandleChar(s[j])
  }

  predicate AllAlnum(s: string)
  {
    forall j :: 0 <= j < |s| ==> IsAsciiAlnum(s[j])
  }

  /**
   * `s` splits at position `i` into a non-empty run of handle characters, the `@`, and a
   * non-empty run of ASCII letters and digits: the pattern `^[a-zA-Z0-9._-]+@[a-zA-Z0-9]+$`.
   */
  predicate UpiSplitAt(s: string, i: int)
  {
    0 < i && HandleThenProvider(s, i)
  }

  /** Handle characters up to `i`, the `@` at `i`, letters and digits after it (at least one). */
  predicate HandleThenProvider(s: string, i: int)
  {
    0 <= i < |s| - 1 && s[i] == '@' && AllHandle(s[..i]) && AllAlnum(s[i + 1..])
  }

  /** The states of the automaton the pattern compiles to. */
  datatype MatchState = Start | InHandle | AfterAt | InProvider | Rejected

  function Step(state: MatchState, c: char): MatchState
  {
    match state
    case Start => if IsHandleChar(c) then InHandle else Rejected
    case InHandle => if IsHandleChar(c) then InHandle else if c == '@' then AfterAt else Rejected
    case AfterAt => if IsAsciiAlnum(c) then InProvider else Rejected
    case InProvider => if IsAsciiAlnum(c) then InProvider else Rejected
    case Rejected => Rejected
  }

  function Run(state: MatchState, s: string): MatchState
    decreases |s|
  {
    if s == [] then state else Run(Step(state, s[0]), s[1..])
  }

  /** `isValidUpiId`: the regular expression run as an automaton over the whole string. */
  function IsValidUpiId(s: string): bool
  {
    Run(Start, s) == InProvider
  }

  lemma {:induction false} RunRejected(s: string)
    ensures Run(Rejected, s) == Rejected
    decreases |s|
  {
    if s != [] {
      RunRejected(s[1..]);
    }
  }

  lemma {:induction false} RunProvider(s: string)
    ensures Run(InProvider, s) == InProvider <==> AllAlnum(s)
    decreases |s|
  {
    if s != [] {
      RunProvider(s[1..]);
      if !IsAsciiAlnum(s[0]) {
        RunRejected(s[1..]);
      }
    }
  }

  lemma RunAfterAt(s: string)
    ensures Run(AfterAt, s) == InProvider <==> s != [] && AllAlnum(s)
  {
    if s != [] {
      RunProvider(s[1..]);
      if !IsAsciiAlnum(s[0]) {
        RunRejected(s[1..]);
      }
    }
  }

  /** A split of `s[1..]` is a split of `s` one further on, when `s[0]` is a handle character. */
  lemma SplitShift(s: string, i: int)
    requires s != [] && IsHandleChar(s[0])
    ensures HandleThenProvider(s[1..], i) <==> HandleThenProvider(s, i + 1)
  {
    if 0 <= i < |s| - 2 {
      assert s[1..][..i] == s[1..i + 1];
      assert s[1..][i + 1..] == s[i + 2..];
      assert s[..i + 1] == [s[0]] + s[1..i + 1];
    }
  }

  /** A split of `s` past position 0 needs a handle character at 0. */
  lemma SplitHead(s: string, i: int)
    requires HandleThenProvider(s, i) && i > 0
    ensures IsHandleChar(s[0])
  {
    assert s[..i][0] == s[0];
  }

  /** From the handle state, the automaton accepts exactly the strings with a split. */
  lemma {:induction false} RunHandle(s: string)
    ensures Run(InHandle, s) == InProvider <==> exists i :: HandleThenProvider(s, i)
    decreases |s|
  {
    if s == [] {
    } else if IsHandleChar(s[0]) {
      RunHandle(s[1..]);
      if exists i :: HandleThenProvider(s[1..], i) {
        var i :| HandleThenProvider(s[1..], i);
        SplitShift(s, i);
      }
      if exists i :: HandleThenProvider(s, i) {
        var i :| HandleThenProvider(s, i);
        SplitShift(s, i - 1);
      }
    } else if s[0] == '@' {
      RunAfterAt(s[1..]);
      if s[1..] != [] && AllAlnum(s[1..]) {
        assert HandleThenProvider(s, 0);
      }
      if exists i :: HandleThenProvider(s, i) {
        var i :| HandleThenProvider(s, i);
        if i > 0 {
          SplitHead(s, i);
        }
      }
    } else {
      RunRejected(s[1..]);
      if exists i :: HandleThenProvider(s, i) {
        var i :| HandleThenProvider(s, i);
        if i > 0 {
          SplitHead(s, i);
        }
      }
    }
  }

  /** The automaton accepts exactly the strings of the pattern `^[a-zA-Z0-9._-]+@[a-zA-Z0-9]+$`. */
  lemma IsValidUpiIdIff(s: string)
    ensures IsValidUpiId(s) <==> exists i :: UpiSplitAt(s, i)
  {
    if s == [] {
    } else if IsHandleChar(s[0]) {
      RunHandle(s[1..]);
      if exists i :: UpiSplitAt(s, i) {
        var i :| UpiSplitAt(s, i);
        SplitShift(s, i - 1);
      }
      if exists i :: HandleThenProvider(s[1..], i) {
        var i :| HandleThenProvider(s[1..], i);
        SplitShift(s, i);
        assert UpiSplitAt(s, i + 1);
      }
    } else {
      RunRejected(s[1..]);
      if exists i :: UpiSplitAt(s, i) {
        var i :| UpiSplitAt(s, i);
        SplitHead(s, i);
      }
    }
  }

  /**
   * An accepted UPI id has exactly one `@`, a non-empty handle before it, and a provider after
   * it made of letters and digits only: no `.` and no `-`.
   */
  lemma ValidUpiIdShape(s: string)
    requires IsValidUpiId(s)
    ensures exists i ::
      && 0 < i < |s| - 1
      && s[i] == '@'
      && (forall j :: 0 <= j < |s| && j != i ==> s[j] != '@')
      && (forall j :: i < j < |s| ==> s[j] != '.' && s[j] != '-')
  {
    IsValidUpiIdIff(s);
    var i :| UpiSplitAt(s, i);
    forall j | 0 <= j < |s| && j != i
      ensures s[j] != '@'
    {
      if j < i {
        assert IsHandleChar(s[..i][j]);
      } else {
        assert IsAsciiAlnum(s[i + 1..][j - i - 1]);
      }
    }
    forall j | i < j < |s|
      ensures s[j] != '.' && s[j] != '-'
    {
      assert IsAsciiAlnum(s[i + 1..][j - i - 1]);
    }
  }

  /** A plain handle at a letters-only provider is accepted. */
  lemma UpiIdAccepted()
    ensures IsValidUpiId("shop@upi")
  {
    IsValidUpiIdIff("shop@upi");
    var s := "shop@upi";
    assert s[..4] == "shop" && s[5..] == "upi";
    assert UpiSplitAt(s, 4);
  }

  /** A dot in the provider is rejected: `a@ok.bank` is not a UPI id. */
  lemma UpiIdDottedProviderRejected()
    ensures !IsValidUpiId("a@ok.bank")
  {
    var s := "a@ok.bank";
    forall i | true
      ensures !UpiSplitAt(s, i)
    {
      if i == 1 {
        assert s[2..][2] == '.';
      } else if 0 <= i < |s| {
        assert s[i] != '@';
      }
    }
    IsValidUpiIdIff(s);
  }

  /** Both sides of the `@` must be non-empty. */
  lemma UpiIdEmptySideRejected()
    ensures !IsValidUpiId("@upi")
    ensures !IsValidUpiId("name@")
  {
    assert Run(Start, "@upi") == Run(Rejected, "upi");
    RunRejected("upi");
    IsValidUpiIdIff("name@");
  }
}
