/** The tool arguments as the JSON decoder delivers them, and the
    normalisation of address-list arguments: a single string or an array
    of strings becomes a list of addresses, each checked by the address
    parser, which is a parameter (`None` when it accepts an address,
    `Some(reason)` otherwise). */
module Arguments {
  import opened Results

  /** A decoded JSON value. Numbers are decoded as reals. */
  datatype Value = Null | Str(s: string) | Num(n: real) | Bool(b: bool) | Arr(items: seq<Value>) | Obj(fields: map<string, Value>)

  type Args = map<string, Value>

  /** The string argument `key`, or "" when it is absent or not a string. */
  function StrArg(args: Args, key: string): (r: string)
    ensures key in args && args[key].Str? ==> r == args[key].s
    ensures !(key in args && args[key].Str?) ==> r == ""
  {
    if key in args && args[key].Str? then args[key].s else ""
  }

  /** The argument `key`, or `Null` when it is absent. */
  function ArgOf(args: Args, key: string): (v: Value)
    ensures key in args ==> v == args[key]
    ensures key !in args ==> v == Null
  {
    if key in args then args[key] else Null
  }

  /** The non-empty strings among `items`, in order; other values are
      dropped. */
  function NonEmptyStrings(items: seq<Value>): (r: seq<string>)
    ensures |r| <= |items|
    ensures forall x :: x in r ==> x != ""
  {
    if items == [] then []
    else
      var rest := NonEmptyStrings(items[..|items| - 1]);
      var last := items[|items| - 1];
      if last.Str? && last.s != "" then rest + [last.s] else rest
  }

  /** A string is kept exactly when it is a non-empty string element. */
  lemma {:induction false} NonEmptyStringsMembers(items: seq<Value>, x: string)
    ensures x in NonEmptyStrings(items) <==> x != "" && Str(x) in items
    decreases |items|
  {
    if items != [] {
      var init := items[..|items| - 1];
      NonEmptyStringsMembers(init, x);
      assert items == init + [items[|items| - 1]];
    }
  }

  /** The report for the first address the parser rejects, if any:
      "invalid <role>email address '<address>': <reason>". */
  function AddressCheck(role: string, addrs: seq<string>, parse: string -> Option<string>): (r: Option<string>)
    ensures r.None? <==> forall i :: 0 <= i < |addrs| ==> parse(addrs[i]).None?
    ensures r.Some? ==> exists i :: (0 <= i < |addrs| && parse(addrs[i]).Some?
      && (forall j :: 0 <= j < i ==> parse(addrs[j]).None?)
      && r.value == "invalid " + role + "email address '" + addrs[i] + "': " + parse(addrs[i]).value)
  {
    if addrs == [] then None
    else
      var e := parse(addrs[0]);
      if e.Some? then
        Some("invalid " + role + "email address '" + addrs[0] + "': " + e.value)
      else
        var r := AddressCheck(role, addrs[1..], parse);
        assert forall i :: 0 <= i < |addrs| - 1 ==> addrs[1..][i] == addrs[i + 1];
        if r.Some? then
          var i :| 0 <= i < |addrs| - 1 && parse(addrs[1..][i]).Some?
            && (forall j :: 0 <= j < i ==> parse(addrs[1..][j]).None?)
            && r.value == "invalid " + role + "email address '" + addrs[1..][i] + "': " + parse(addrs[1..][i]).value;
          assert forall j :: 0 <= j < i + 1 ==> parse(addrs[j]).None? by {
            forall j | 0 <= j < i + 1 ensures parse(addrs[j]).None? {
              if j > 0 {
                assert addrs[j] == addrs[1..][j - 1];
              }
            }
          }
          r
        else r
  }

  /** The address list `raw`, or the report for its first rejected
      address. */
  function Checked(role: string, raw: seq<string>, parse: string -> Option<string>): (r: Result<seq<string>>)
  {
    match AddressCheck(role, raw, parse)
    case None => Ok(raw)
    case Some(e) => Err(e)
  }

  /** An optional address-list argument: absent or null gives no
      addresses; a string gives itself unless empty; an array gives its
      non-empty strings; any other value is a type error. Each address
      kept must then pass the parser. */
  function AddressListOf(args: Args, key: string, parse: string -> Option<string>): Result<seq<string>>
  {
    match ArgOf(args, key)
    case Null => Ok([])
    case Str(s) => Checked(key + " ", if s == "" then [] else [s], parse)
    case Arr(items) => Checked(key + " ", NonEmptyStrings(items), parse)
    case _ => Err(key + " must be a string or array of strings")
  }

  /** What an address-list argument yields: nothing when absent, only
      accepted non-empty addresses, every non-empty string of an array,
      and the type error for anything that is neither string nor array. */
  lemma AddressListFacts(args: Args, key: string, parse: string -> Option<string>)
    ensures ArgOf(args, key).Null? ==> AddressListOf(args, key, parse) == Ok([])
    ensures AddressListOf(args, key, parse).Ok? ==>
      forall a :: a in AddressListOf(args, key, parse).value ==> a != "" && parse(a).None?
    ensures ArgOf(args, key).Arr? && AddressListOf(args, key, parse).Ok? ==>
      forall x :: x in AddressListOf(args, key, parse).value <==> x != "" && Str(x) in ArgOf(args, key).items
    ensures ArgOf(args, key) == Str("") ==> AddressListOf(args, key, parse) == Ok([])
    ensures !(ArgOf(args, key).Null? || ArgOf(args, key).Str? || ArgOf(args, key).Arr?) ==>
      AddressListOf(args, key, parse) == Err(key + " must be a string or array of strings")
  {
    var v := ArgOf(args, key);
    if v.Arr? {
      forall x ensures x in NonEmptyStrings(v.items) <==> x != "" && Str(x) in v.items {
        NonEmptyStringsMembers(v.items, x);
      }
    }
  }

  /** A required address-list argument: as `AddressListOf`, but an empty
      list is reported as "<key> is required". */
  function RequireAddressList(args: Args, key: string, parse: string -> Option<string>): (r: Result<seq<string>>)
    ensures r.Ok? ==> |r.value| > 0 && AddressListOf(args, key, parse) == r
    ensures AddressListOf(args, key, parse).Err? ==> r == AddressListOf(args, key, parse)
    ensures AddressListOf(args, key, parse) == Ok([]) ==> r == Err(key + " is required")
  {
    var addrs := AddressListOf(args, key, parse);
    if addrs.Err? then addrs
    else if |addrs.value| == 0 then Err(key + " is required")
    else addrs
  }

  /** Collects the non-empty strings of an array argument, one at a time. */
  method CollectStrings(items: seq<Value>) returns (raw: seq<string>)
    ensures raw == NonEmptyStrings(items)
  {
    raw := [];
    for i := 0 to |items|
      invariant raw == NonEmptyStrings(items[..i])
    {
      assert items[..i + 1][..i] == items[..i];
      if items[i].Str? && items[i].s != "" {
        raw := raw + [items[i].s];
      }
    }
    assert items[..|items|] == items;
  }

  /** Runs the parser over the addresses in order, stopping at the first
      one it rejects. */
  method CheckAddresses(role: string, addrs: seq<string>, parse: string -> Option<string>) returns (err: Option<string>)
    ensures err == AddressCheck(role, addrs, parse)
  {
    var i := 0;
    while i < |addrs|
      invariant 0 <= i <= |addrs|
      invariant AddressCheck(role, addrs[i..], parse) == AddressCheck(role, addrs, parse)
    {
      var e := parse(addrs[i]);
      if e.Some? {
        return Some("invalid " + role + "email address '" + addrs[i] + "': " + e.value);
      }
      assert addrs[i..][1..] == addrs[i + 1..];
      i := i + 1;
    }
    err := None;
  }

  /** Reads an optional address-list argument. */
  method ParseAddressList(args: Args, key: string, parse: string -> Option<string>) returns (r: Result<seq<string>>)
    ensures r == AddressListOf(args, key, parse)
  {
    if key !in args || args[key].Null? {
      return Ok([]);
    }
    var raw: seq<string> := [];
    match args[key] {
      case Str(v) =>
        if v != "" {
          raw := [v];
        }
      case Arr(items) =>
        raw := CollectStrings(items);
      case _ =>
        return Err(key + " must be a string or array of strings");
    }
    var err := CheckAddresses(key + " ", raw, parse);
    if err.Some? {
      return Err(err.value);
    }
    r := Ok(raw);
  }

  // ---------------------------------------------------------------------
  // The recipient arguments of the draft and send tools.

  /** The `to` argument of the draft and send tools: a non-empty string,
      or an array with at least one non-empty string. An empty string, an
      empty array or an array without strings is "to is required";
      anything else, including a missing `to`, is a type error. */
  function ToList(v: Value): (r: Result<seq<string>>)
    ensures r.Ok? ==> |r.value| > 0 && forall a :: a in r.value ==> a != ""
    ensures r.Err? ==> r.msg == "to is required" || r.msg == "to must be a string or array of strings"
    ensures r.Err? && r.msg == "to must be a string or array of strings" <==> !v.Str? && !v.Arr?
  {
    match v
    case Str(s) => if s == "" then Err("to is required") else Ok([s])
    case Arr(items) =>
      if |items| == 0 then Err("to is required")
      else
        var to := NonEmptyStrings(items);
        if |to| == 0 then Err("to is required") else Ok(to)
    case _ => Err("to must be a string or array of strings")
  }

  /** The `cc` and `bcc` arguments of the draft and send tools: a string
      or the strings of an array, empty strings dropped; a value of any
      other type is ignored. */
  function OptionalList(v: Value): (r: seq<string>)
    ensures forall a :: a in r ==> a != ""
    ensures !v.Str? && !v.Arr? ==> r == []
  {
    match v
    case Str(s) => if s == "" then [] else [s]
    case Arr(items) => NonEmptyStrings(items)
    case _ => []
  }

  /** Reads the `to` argument, keeping the non-empty strings of an array
      one at a time. */
  method ReadTo(v: Value) returns (r: Result<seq<string>>)
    ensures r == ToList(v)
  {
    var to: seq<string> := [];
    match v {
      case Str(s) =>
        if s == "" {
          return Err("to is required");
        }
        to := [s];
      case Arr(items) =>
        if |items| == 0 {
          return Err("to is required");
        }
        to := CollectStrings(items);
      case _ =>
        return Err("to must be a string or array of strings");
    }
    if |to| == 0 {
      return Err("to is required");
    }
    r := Ok(to);
  }

  /** Reads a `cc` or `bcc` argument. */
  method ReadOptionalList(v: Value) returns (r: seq<string>)
    ensures r == OptionalList(v)
  {
    r := [];
    match v {
      case Str(s) =>
        if s != "" {
          r := [s];
        }
      case Arr(items) =>
        r := CollectStrings(items);
      case _ =>
    }
  }

  /** A Cc or Bcc argument of the wrong type is not an error, unlike for
      the address-list arguments of the other tools. */
  lemma OptionalListIgnoresWrongType(args: Args, key: string, n: real, parse: string -> Option<string>)
    requires key in args && args[key] == Num(n)
    ensures OptionalList(args[key]) == []
    ensures AddressListOf(args, key, parse) == Err(key + " must be a string or array of strings")
  {
  }
}
