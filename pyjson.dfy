/** The Python values that `response.json()` produces, and the parts of
    Python's `str()`, `repr()` and `type()` that the bot's messages use. */
module PyJson {
  import opened Results

  /** A decoded JSON value. A dict keeps its members in insertion order,
      as a Python dict does. */
  datatype Json =
    | JNull
    | JBool(b: bool)
    | JInt(i: int)
    | JString(s: string)
    | JList(items: seq<Json>)
    | JDict(members: seq<(string, Json)>)

  /** `d[key]` for a dict with these members: the value under the first
      member with that key, or None when `key not in d`. */
  function Lookup(members: seq<(string, Json)>, key: string): (r: Option<Json>)
    ensures r.None? <==> forall i :: 0 <= i < |members| ==> members[i].0 != key
    ensures r.Some? ==>
      exists i :: 0 <= i < |members| && members[i] == (key, r.value) &&
        forall j :: 0 <= j < i ==> members[j].0 != key
  {
    if members == [] then None
    else if members[0].0 == key then Some(members[0].1)
    else
      var r := Lookup(members[1..], key);
      if r.Some? then
        ghost var i :| 0 <= i < |members[1..]| && members[1..][i] == (key, r.value) &&
          forall j :: 0 <= j < i ==> members[1..][j].0 != key;
        assert members[i + 1] == (key, r.value);
        r
      else r
  }

  /** `d.get(key, default)` on a dict. */
  function DictGet(d: Json, key: string, default: Json): (r: Json)
    requires d.JDict?
    ensures Lookup(d.members, key).None? ==> r == default
    ensures Lookup(d.members, key).Some? ==> r == Lookup(d.members, key).value
  {
    match Lookup(d.members, key)
    case None => default
    case Some(v) => v
  }

  /** The name Python gives the type of the decoded value, as in `<class 'list'>`. */
  function TypeName(j: Json): string {
    match j
    case JNull => "NoneType"
    case JBool(_) => "bool"
    case JInt(_) => "int"
    case JString(_) => "str"
    case JList(_) => "list"
    case JDict(_) => "dict"
  }

  /** `str(type(j))`: the type's name can be read back from between
      `<class '` and `'>`. */
  function TypeText(j: Json): (r: string)
    ensures |r| == |TypeName(j)| + 10
    ensures r[..8] == "<class '" && r[|r| - 2..] == "'>"
    ensures r[8..|r| - 2] == TypeName(j)
  {
    "<class '" + TypeName(j) + "'>"
  }

  /** Is the value hashable, so that `j in some_dict` can be asked? */
  predicate Hashable(j: Json) {
    !j.JList? && !j.JDict?
  }

  function Digit(d: nat): char
    requires d < 10
  {
    ('0' as int + d) as char
  }

  predicate AllDigits(s: string) {
    forall k :: 0 <= k < |s| ==> '0' <= s[k] <= '9'
  }

  /** The number a string of decimal digits denotes. */
  function DecimalValue(s: string): nat
    requires AllDigits(s)
  {
    if s == [] then 0
    else DecimalValue(s[..|s| - 1]) * 10 + (s[|s| - 1] as int - '0' as int)
  }

  /** Decimal digits of a natural number, as `str(n)` writes them. */
  function NatText(n: nat): (r: string)
    ensures |r| > 0 && AllDigits(r)
    decreases n
  {
    if n < 10 then [Digit(n)] else NatText(n / 10) + [Digit(n % 10)]
  }

  /** `str(n)` is the canonical decimal form: its digits read back as `n`,
      and it has no leading zero. */
  lemma {:induction false} NatTextValue(n: nat)
    ensures DecimalValue(NatText(n)) == n
    ensures |NatText(n)| == 1 || NatText(n)[0] != '0'
    decreases n
  {
    var r := NatText(n);
    if n < 10 {
      assert r[..|r| - 1] == [];
    } else {
      NatTextValue(n / 10);
      assert r[..|r| - 1] == NatText(n / 10);
      assert r[0] == NatText(n / 10)[0];
    }
  }

  /** `str(i)` for an int. */
  function IntText(i: int): (r: string)
    ensures i >= 0 ==> |r| > 0 && AllDigits(r) && DecimalValue(r) == i && (|r| == 1 || r[0] != '0')
    ensures i < 0 ==>
      && |r| >= 2 && r[0] == '-' && AllDigits(r[1..]) && DecimalValue(r[1..]) == -i
      && (|r| == 2 || r[1] != '0')
  {
    NatTextValue(if i < 0 then -i else i);
    if i < 0 then
      var r := "-" + NatText(-i);
      assert r[1..] == NatText(-i);
      r
    else NatText(i)
  }

  /** `sep.join(parts)`. */
  function Join(parts: seq<string>, sep: string): (r: string)
    ensures parts == [] ==> r == ""
    ensures |parts| == 1 ==> r == parts[0]
  {
    if parts == [] then ""
    else if |parts| == 1 then parts[0]
    else parts[0] + sep + Join(parts[1..], sep)
  }

  /** Joining adds the last part after a separator: read from the other
      end, `sep.join(parts)` is the join of all but the last part, then
      `sep`, then the last part. */
  lemma {:induction false} JoinLast(parts: seq<string>, sep: string)
    requires |parts| >= 2
    ensures Join(parts, sep) == Join(parts[..|parts| - 1], sep) + sep + parts[|parts| - 1]
    decreases |parts|
  {
    var n := |parts|;
    var init := parts[..n - 1];
    if n == 2 {
      assert parts[1..] == [parts[1]];
      assert init == [parts[0]];
    } else {
      JoinLast(parts[1..], sep);
      assert parts[1..][..n - 2] == init[1..];
      assert init[0] == parts[0];
      assert parts[1..][n - 2] == parts[n - 1];
      calc {
        Join(parts, sep);
        parts[0] + sep + Join(parts[1..], sep);
        parts[0] + sep + (Join(init[1..], sep) + sep + parts[n - 1]);
        (parts[0] + sep + Join(init[1..], sep)) + sep + parts[n - 1];
        Join(init, sep) + sep + parts[n - 1];
      }
    }
  }

  /** `sep.join` of three parts. */
  lemma JoinThree(a: string, b: string, c: string, sep: string)
    ensures Join([a, b, c], sep) == a + sep + b + sep + c
  {
    assert [a, b, c][1..] == [b, c] && [b, c][1..] == [c];
  }

  /** `s.endswith(suffix)`. */
  predicate EndsWith(s: string, suffix: string) {
    |suffix| <= |s| && s[|s| - |suffix|..] == suffix
  }

  lemma EndsWithConcat(prefix: string, suffix: string)
    ensures EndsWith(prefix + suffix, suffix)
  {
    assert (prefix + suffix)[|prefix|..] == suffix;
  }

  /** A name written between the last character of `before` and the
      first of `after`. */
  lemma QuotedAt(before: string, name: string, after: string)
    requires |before| >= 1 && |after| >= 1
    ensures var r := before + name + after;
      && |r| == |before| + |name| + |after|
      && r[|before| - 1] == before[|before| - 1]
      && r[|before|..|before| + |name|] == name
      && r[|before| + |name|] == after[0]
  {
  }

  /** `repr(j)`: how a value is shown inside a list or dict. */
  function Repr(j: Json): (r: string)
    ensures j.JString? ==> r == "'" + j.s + "'"
    ensures j.JList? ==> |r| >= 2 && r[0] == '[' && r[|r| - 1] == ']'
    ensures j.JDict? ==> |r| >= 2 && r[0] == '{' && r[|r| - 1] == '}'
    ensures j.JList? && j.items == [] ==> r == "[]"
    ensures j.JDict? && j.members == [] ==> r == "{}"
  {
    match j
    case JNull => "None"
    case JBool(b) => if b then "True" else "False"
    case JInt(i) => IntText(i)
    case JString(s) => "'" + s + "'"
    case JList(items) =>
      "[" + Join(seq(|items|, k requires 0 <= k < |items| => Repr(items[k])), ", ") + "]"
    case JDict(members) =>
      "{" + Join(seq(|members|, k requires 0 <= k < |members| =>
                       "'" + members[k].0 + "': " + Repr(members[k].1)), ", ") + "}"
  }

  /** `str(j)`, as an f-string writes the value: a string as it is,
      anything else as its repr. */
  function Str(j: Json): (r: string)
    ensures j.JString? ==> r == j.s
    ensures j.JNull? ==> r == "None"
    ensures j.JBool? ==> r == if j.b then "True" else "False"
    ensures j.JInt? && j.i >= 0 ==> AllDigits(r) && DecimalValue(r) == j.i
    ensures j.JInt? && j.i >= 0 ==> |r| > 0 && (|r| == 1 || r[0] != '0')
    ensures j.JInt? && j.i < 0 ==> |r| >= 2 && r[0] == '-' && AllDigits(r[1..]) && DecimalValue(r[1..]) == -j.i
    ensures j.JInt? && j.i < 0 ==> |r| == 2 || r[1] != '0'
    ensures (j.JList? || j.JDict?) ==> r == Repr(j)
  {
    match j
    case JString(s) => s
    case _ => Repr(j)
  }
}
