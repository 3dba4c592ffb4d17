/**
 * `todoAPI.getTodos` of frontend/src/services/api.js, up to the query
 * parameters it sends: the entries of the filter object whose value is
 * neither `undefined`, `null` nor `''`, in order, each value converted to a
 * string as `URLSearchParams.append` does.
 */
module Api {

  /** `Number.MAX_SAFE_INTEGER`, 2^53 - 1. */
  const MaxSafeInteger := 0x1F_FFFF_FFFF_FFFF

  /**
   * The integers a JavaScript number holds exactly. All of them are below 10^21,
   * so `String` writes each one as plain decimal digits.
   */
  type SafeInteger = n: int | -MaxSafeInteger <= n <= MaxSafeInteger

  /** A JavaScript value held by the filter object (numbers are safe integers here). */
  datatype JsValue = Undefined | Null | Str(s: string) | Bool(b: bool) | Num(n: SafeInteger)

  /** One `key=value` query parameter. */
  type Param = (string, string)

  /** The strict inequalities of getTodos: only these three values are skipped. */
  predicate Omitted(v: JsValue) {
    v == Undefined || v == Null || v == Str("")
  }

  function Digit(d: nat): (c: char)
    requires d < 10
    ensures c as int - '0' as int == d
  {
    "0123456789"[d]
  }

  /** The number a string of decimal digits denotes, read left to right. */
  function DigitsValue(s: string): nat
    requires forall i :: 0 <= i < |s| ==> '0' <= s[i] <= '9'
  {
    if s == [] then 0 else DigitsValue(s[..|s| - 1]) * 10 + (s[|s| - 1] as int - '0' as int)
  }

  /** The decimal digits of a natural number, without leading zeros. */
  function Decimal(n: nat): (s: string)
    ensures |s| >= 1
    ensures forall i :: 0 <= i < |s| ==> '0' <= s[i] <= '9'
    ensures DigitsValue(s) == n
    ensures |s| > 1 ==> s[0] != '0'
  {
    if n < 10 then [Digit(n)]
    else
      var s := Decimal(n / 10) + [Digit(n % 10)];
      assert s[..|s| - 1] == Decimal(n / 10);
      s
  }

  /** `String(v)`, the conversion `append` applies to a value. */
  function Stringify(v: JsValue): (s: string)
    ensures v.Str? ==> s == v.s
    ensures v.Bool? ==> s == (if v.b then "true" else "false")
    ensures s == "" <==> v == Str("")
    ensures v.Num? && v.n >= 0 ==>
      (forall i :: 0 <= i < |s| ==> '0' <= s[i] <= '9') && DigitsValue(s) == v.n
    ensures v.Num? && v.n < 0 ==>
      && |s| >= 2 && s[0] == '-'
      && (forall i :: 1 <= i < |s| ==> '0' <= s[i] <= '9')
      && DigitsValue(s[1..]) == -v.n
    ensures v.Num? && v.n >= 0 && |s| > 1 ==> s[0] != '0'
    ensures v.Num? && v.n < 0 ==> s[1] != '0'
  {
    match v
    case Undefined => "undefined"
    case Null => "null"
    case Str(s) => s
    case Bool(b) => if b then "true" else "false"
    case Num(n) =>
      if n < 0 then
        var digits := Decimal(-n);
        assert ("-" + digits)[1..] == digits;
        "-" + digits
      else Decimal(n)
  }

  /** The parameters getTodos appends for a list of filter entries. */
  function Kept(filters: seq<(string, JsValue)>): seq<Param> {
    if filters == [] then []
    else
      (if Omitted(filters[0].1) then [] else [(filters[0].0, Stringify(filters[0].1))])
      + Kept(filters[1..])
  }

  /** No key occurs twice, as in the entries of a JavaScript object. */
  predicate UniqueKeys<V>(entries: seq<(string, V)>) {
    forall i, j :: 0 <= i < j < |entries| ==> entries[i].0 != entries[j].0
  }

  /** The parameters of `getTodos(filters)`, built by appending entry by entry. */
  method GetTodosParams(filters: seq<(string, JsValue)>) returns (params: seq<Param>)
    ensures params == Kept(filters)
  {
    params := [];
    var i := 0;
    while i < |filters|
      invariant 0 <= i <= |filters|
      invariant params == Kept(filters[..i])
    {
      var (key, value) := filters[i];
      if value != Undefined && value != Null && value != Str("") {
        params := params + [(key, Stringify(value))];
      }
      KeptConcat(filters[..i], [filters[i]]);
      assert filters[..i + 1] == filters[..i] + [filters[i]];
      i := i + 1;
    }
    assert filters[..i] == filters;
  }

  /** Entries are processed independently and in order. */
  lemma {:induction false} KeptConcat(a: seq<(string, JsValue)>, b: seq<(string, JsValue)>)
    ensures Kept(a + b) == Kept(a) + Kept(b)
  {
    if a == [] {
      assert a + b == b;
    } else {
      assert (a + b)[1..] == a[1..] + b;
      KeptConcat(a[1..], b);
    }
  }

  /** A parameter is sent exactly when some non-omitted entry produces it. */
  lemma {:induction false} KeptMembership(filters: seq<(string, JsValue)>, p: Param)
    ensures p in Kept(filters) <==>
      exists i :: 0 <= i < |filters| && !Omitted(filters[i].1) && p == (filters[i].0, Stringify(filters[i].1))
  {
    if filters != [] {
      KeptMembership(filters[1..], p);
      if p in Kept(filters[1..]) {
        var i :| 0 <= i < |filters[1..]| && !Omitted(filters[1..][i].1) && p == (filters[1..][i].0, Stringify(filters[1..][i].1));
        assert filters[i + 1] == filters[1..][i];
      }
      if exists i :: 0 <= i < |filters| && !Omitted(filters[i].1) && p == (filters[i].0, Stringify(filters[i].1)) {
        var i :| 0 <= i < |filters| && !Omitted(filters[i].1) && p == (filters[i].0, Stringify(filters[i].1));
        if i > 0 {
          assert filters[1..][i - 1] == filters[i];
        }
      }
    }
  }

  /** With unique keys, the key of an omitted entry never reaches the parameters. */
  lemma OmittedNeverSent(filters: seq<(string, JsValue)>, i: nat)
    requires UniqueKeys(filters)
    requires i < |filters| && Omitted(filters[i].1)
    ensures forall p :: p in Kept(filters) ==> p.0 != filters[i].0
  {
    forall p | p in Kept(filters)
      ensures p.0 != filters[i].0
    {
      KeptMembership(filters, p);
    }
  }

  /** With unique keys, each kept entry is sent once: the parameters have unique keys too. */
  lemma {:induction false} KeptUnique(filters: seq<(string, JsValue)>)
    requires UniqueKeys(filters)
    ensures UniqueKeys(Kept(filters))
  {
    if filters != [] {
      var rest := filters[1..];
      assert UniqueKeys(rest) by {
        forall i, j | 0 <= i < j < |rest|
          ensures rest[i].0 != rest[j].0
        {
          assert rest[i] == filters[i + 1] && rest[j] == filters[j + 1];
        }
      }
      KeptUnique(rest);
      if !Omitted(filters[0].1) {
        forall p | p in Kept(rest)
          ensures p.0 != filters[0].0
        {
          KeptMembership(rest, p);
          var i :| 0 <= i < |rest| && !Omitted(rest[i].1) && p == (rest[i].0, Stringify(rest[i].1));
          assert rest[i] == filters[i + 1];
        }
        var head := [(filters[0].0, Stringify(filters[0].1))];
        var all := head + Kept(rest);
        forall i, j | 0 <= i < j < |all|
          ensures all[i].0 != all[j].0
        {
          if i == 0 {
            assert all[j] == Kept(rest)[j - 1];
            assert all[j] in Kept(rest);
          } else {
            assert all[i] == Kept(rest)[i - 1] && all[j] == Kept(rest)[j - 1];
          }
        }
      }
    }
  }

  /** No entry is sent when every value is omitted, in particular for an empty filter object. */
  lemma {:induction false} KeptEmpty(filters: seq<(string, JsValue)>)
    ensures Kept(filters) == [] <==> forall i :: 0 <= i < |filters| ==> Omitted(filters[i].1)
  {
    if filters != [] {
      KeptEmpty(filters[1..]);
      assert forall i :: 1 <= i < |filters| ==> filters[i] == filters[1..][i - 1];
    }
  }

  /** No parameter carries an empty value, and at most one parameter is sent per entry. */
  lemma {:induction false} KeptBounds(filters: seq<(string, JsValue)>)
    ensures |Kept(filters)| <= |filters|
    ensures forall p :: p in Kept(filters) ==> p.1 != ""
  {
    if filters != [] {
      KeptBounds(filters[1..]);
    }
  }

  /** Falsy values other than the three omitted ones are kept: `false`, `0` and `"all"` are sent. */
  lemma FalsyValuesSent(key: string)
    ensures Kept([(key, Bool(false))]) == [(key, "false")]
    ensures Kept([(key, Num(0))]) == [(key, "0")]
    ensures Kept([(key, Str("all"))]) == [(key, "all")]
  {
  }
}
