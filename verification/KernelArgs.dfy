/** The kernel command line as a map: kernelArgs.String and parseKernelArgs. */
module KernelArgs {
  import opened Text

  /** "key=value" is a key with a value, "key" a key without one (Go's nil). */
  type Args = map<string, Option<string>>

  /** unicode.IsSpace, which strings.Fields splits at. */
  predicate IsSpace(c: char) {
    || '\t' <= c <= '\r' || c == ' '
    || c == '\U{0085}' || c == '\U{00A0}' || c == '\U{1680}'
    || '\U{2000}' <= c <= '\U{200A}'
    || c == '\U{2028}' || c == '\U{2029}' || c == '\U{202F}' || c == '\U{205F}' || c == '\U{3000}'
  }

  predicate NoSpace(s: string) {
    forall i :: 0 <= i < |s| ==> !IsSpace(s[i])
  }

  /** A field strings.Fields can return. */
  predicate Word(s: string) { s != "" && NoSpace(s) }

  function UntilSpace(s: string): (n: nat)
    ensures n <= |s| && NoSpace(s[..n]) && (n < |s| ==> IsSpace(s[n]))
  {
    if s == "" || IsSpace(s[0]) then 0 else 1 + UntilSpace(s[1..])
  }

  /** strings.Fields. */
  function Fields(s: string): (fields: seq<string>)
    ensures forall i :: 0 <= i < |fields| ==> Word(fields[i])
    decreases |s|
  {
    if s == "" then []
    else if IsSpace(s[0]) then Fields(s[1..])
    else
      var n := UntilSpace(s);
      [s[..n]] + Fields(s[n..])
  }

  /** In ASCII: the blank, and the five controls from tab to carriage return. */
  lemma {:induction false} AsciiSpace(c: char)
    requires c as int < 128
    ensures IsSpace(c) <==> c == ' ' || 9 <= c as int <= 13
  {
    assert '\t' as int == 9 && '\r' as int == 13;
  }

  /** A word is a field by itself, */
  lemma {:induction false} FieldsWord(w: string)
    requires Word(w)
    ensures Fields(w) == [w]
  {
    UntilSpaceOf(w, "");
    assert w + "" == w && w[..|w|] == w && w[|w|..] == "";
  }

  /** and white space anywhere separates what is before it from what is after. */
  lemma {:induction false} FieldsSplit(a: string, sp: char, b: string)
    requires IsSpace(sp)
    ensures Fields(a + [sp] + b) == Fields(a) + Fields(b)
    decreases |a|
  {
    var all := a + [sp] + b;
    if a == "" {
      assert all[1..] == b;
    } else if IsSpace(a[0]) {
      assert all[1..] == a[1..] + [sp] + b;
      FieldsSplit(a[1..], sp, b);
    } else {
      var n := UntilSpace(a);
      FieldsSplit(a[n..], sp, b);
      FirstField(a[..n], a[n..] + [sp] + b);
      FirstField(a[..n], a[n..]);
      assert a == a[..n] + a[n..] && all == a[..n] + (a[n..] + [sp] + b);
    }
  }

  lemma {:induction false} FirstField(w: string, rest: string)
    requires Word(w) && (rest == "" || IsSpace(rest[0]))
    ensures Fields(w + rest) == [w] + Fields(rest)
  {
    UntilSpaceOf(w, rest);
    assert (w + rest)[..|w|] == w && (w + rest)[|w|..] == rest;
  }

  // ---------- parsing ----------

  /** strings.SplitN(field, "=", 2). */
  function KeyOf(field: string): string { field[..Until(field, '=')] }

  function ValueOf(field: string): Option<string> {
    var n := Until(field, '=');
    if n == |field| then None else Some(field[n + 1..])
  }

  /** Fields taken in order; a later field for the same key wins. */
  function FromFields(fields: seq<string>): Args {
    if fields == [] then map[]
    else
      var last := fields[|fields| - 1];
      FromFields(fields[..|fields| - 1])[KeyOf(last) := ValueOf(last)]
  }

  function Parsed(raw: string): Args { FromFields(Fields(raw)) }

  /** The text of a field that gives k the value v, or no value. */
  predicate Gives(field: string, k: string, v: Option<string>) {
    '=' !in k && field == match v case None => k case Some(x) => k + "=" + x
  }

  /** Every field gives exactly one key, and that one value. */
  lemma {:induction false} GivesOne(field: string, k: string, v: Option<string>)
    ensures Gives(field, KeyOf(field), ValueOf(field))
    ensures Gives(field, k, v) ==> k == KeyOf(field) && v == ValueOf(field)
  {
    var n := Until(field, '=');
    if n < |field| {
      assert field == field[..n] + "=" + field[n + 1..];
    } else {
      assert field == field[..n];
    }
    if Gives(field, k, v) {
      GivenIsRead(field, k, v);
    }
  }

  lemma {:induction false} GivenIsRead(field: string, k: string, v: Option<string>)
    requires Gives(field, k, v)
    ensures k == KeyOf(field) && v == ValueOf(field)
  {
    match v
    case None =>
      UntilOf(k, '=', "");
      assert k + "" == k;
    case Some(x) =>
      assert field == k + ("=" + x);
      UntilOf(k, '=', "=" + x);
  }

  /** Field i gives k the value v, and no later field gives k any. */
  ghost predicate LastGives(fields: seq<string>, i: nat, k: string, v: Option<string>) {
    && i < |fields|
    && Gives(fields[i], k, v)
    && forall j, w :: i < j < |fields| ==> !Gives(fields[j], k, w)
  }

  /** The map has exactly the keys the fields give, each with the value of the last field
      that gives it. */
  lemma {:induction false} LastFieldWins(fields: seq<string>, k: string)
    ensures k in FromFields(fields) ==> exists i: nat :: LastGives(fields, i, k, FromFields(fields)[k])
    ensures forall i: nat, v :: LastGives(fields, i, k, v) ==> k in FromFields(fields) && FromFields(fields)[k] == v
  {
    if fields != [] {
      var n := |fields| - 1;
      var before, last := fields[..n], fields[n];
      LastFieldWins(before, k);
      assert fields == before + [last];
      OneFieldMore(before, last, k);
    }
  }

  lemma {:induction false} OneFieldMore(before: seq<string>, last: string, k: string)
    ensures var fields := before + [last];
            && (k == KeyOf(last) ==> LastGives(fields, |before|, k, ValueOf(last)))
            && (forall i: nat, v :: LastGives(fields, i, k, v) ==>
                  if k == KeyOf(last) then v == ValueOf(last) else LastGives(before, i, k, v))
            && (k != KeyOf(last) ==> forall i: nat, v :: LastGives(before, i, k, v) ==> LastGives(fields, i, k, v))
  {
    var fields := before + [last];
    forall w
      ensures Gives(last, k, w) <==> k == KeyOf(last) && w == ValueOf(last)
    {
      GivesOne(last, k, w);
    }
    assert fields[|before|] == last;
    assert forall j :: 0 <= j < |before| ==> fields[j] == before[j];
  }

  /** A key given at all is given last by some field. */
  lemma {:induction false} LastGiver(fields: seq<string>, i: nat, k: string, v: Option<string>)
    requires i < |fields| && Gives(fields[i], k, v)
    ensures exists m: nat, u :: LastGives(fields, m, k, u)
    decreases |fields| - i
  {
    if j, w :| i < j < |fields| && Gives(fields[j], k, w) {
      LastGiver(fields, j, k, w);
    } else {
      assert LastGives(fields, i, k, v);
    }
  }

  /** The map says what the fields say: k is in it if and only if some field gives it, and
      then with the value of the last one that does. */
  ghost predicate ReadsAs(fields: seq<string>, args: Args) {
    && (forall k :: k in args <==> exists i, v :: 0 <= i < |fields| && Gives(fields[i], k, v))
    && (forall i: nat, k, v :: LastGives(fields, i, k, v) ==> k in args && args[k] == v)
  }

  /** The loop in parseKernelArgs. */
  method ParseFields(fields: seq<string>) returns (argMap: Args)
    ensures argMap == FromFields(fields)
  {
    argMap := map[];
    for i := 0 to |fields|
      invariant argMap == FromFields(fields[..i])
    {
      var kv := fields[i];
      var eq := Until(kv, '=');
      var value := None;
      if eq < |kv| {
        value := Some(kv[eq + 1..]);
      }
      argMap := argMap[kv[..eq] := value];
      assert fields[..i + 1][..i] == fields[..i];
    }
    assert fields[..|fields|] == fields;
  }

  /** parseKernelArgs. */
  method ParseKernelArgs(raw: string) returns (argMap: Args)
    ensures argMap == Parsed(raw)
    ensures ReadsAs(Fields(raw), argMap)
  {
    argMap := ParseFields(Fields(raw));
    FieldsRead(Fields(raw));
  }

  lemma {:induction false} FieldsRead(fields: seq<string>)
    ensures ReadsAs(fields, FromFields(fields))
  {
    forall k
      ensures k in FromFields(fields) <==> exists i, v :: 0 <= i < |fields| && Gives(fields[i], k, v)
    {
      KeyIff(fields, k);
    }
    forall i: nat, k, v | LastGives(fields, i, k, v)
      ensures k in FromFields(fields) && FromFields(fields)[k] == v
    {
      LastFieldWins(fields, k);
    }
  }

  lemma {:induction false} KeyIff(fields: seq<string>, k: string)
    ensures k in FromFields(fields) <==> exists i, v :: 0 <= i < |fields| && Gives(fields[i], k, v)
  {
    LastFieldWins(fields, k);
    if i, v :| 0 <= i < |fields| && Gives(fields[i], k, v) {
      LastGiver(fields, i, k, v);
    }
  }

  // ---------- printing ----------

  function Field(key: string, value: Option<string>): string {
    match value
    case None => key
    case Some(v) => key + "=" + v
  }

  /** A map iteration order: every key once. */
  ghost predicate Order(args: Args, order: seq<string>) {
    && (forall i, j :: 0 <= i < j < |order| ==> order[i] != order[j])
    && (forall i :: 0 <= i < |order| ==> order[i] in args)
    && (forall k :: k in args ==> k in order)
  }

  function FieldsOf(args: Args, order: seq<string>): (fields: seq<string>)
    requires forall i :: 0 <= i < |order| ==> order[i] in args
    ensures |fields| == |order|
    ensures forall i :: 0 <= i < |order| ==> fields[i] == Field(order[i], args[order[i]])
  {
    seq(|order|, i requires 0 <= i < |order| => Field(order[i], args[order[i]]))
  }

  function Printed(args: Args, order: seq<string>): string
    requires Order(args, order)
  {
    Join(FieldsOf(args, order), ' ')
  }

  /** kernelArgs.String, for whatever order the map is iterated in. */
  method KernelArgsString(args: Args, order: seq<string>) returns (s: string)
    requires Order(args, order)
    ensures s == Printed(args, order)
  {
    var fields: seq<string> := [];
    for i := 0 to |order|
      invariant |fields| == i
      invariant forall j :: 0 <= j < i ==> fields[j] == Field(order[j], args[order[j]])
    {
      var field := order[i];
      match args[order[i]] {
        case None =>
        case Some(value) => field := field + "=" + value;
      }
      fields := fields + [field];
    }
    assert fields == FieldsOf(args, order);
    s := Join(fields, ' ');
  }

  // ---------- round trips ----------

  /** The maps a kernel command line can carry. */
  ghost predicate WellFormed(args: Args) {
    forall k :: k in args ==>
                  && NoSpace(k) && '=' !in k
                  && (args[k].Some? ==> NoSpace(args[k].value))
                  && (args[k].None? ==> k != "")
  }

  lemma {:induction false} UntilSpaceOf(head: string, tail: string)
    requires NoSpace(head) && (tail == "" || IsSpace(tail[0]))
    ensures UntilSpace(head + tail) == |head|
  {
    if head != "" {
      assert (head + tail)[1..] == head[1..] + tail;
      UntilSpaceOf(head[1..], tail);
    }
  }

  lemma {:induction false} FieldsJoin(words: seq<string>)
    requires forall i :: 0 <= i < |words| ==> Word(words[i])
    ensures Fields(Join(words, ' ')) == words
  {
    if |words| == 1 {
      UntilSpaceOf(words[0], "");
      assert words[0] + "" == words[0];
      assert words[0][..|words[0]|] == words[0] && words[0][|words[0]|..] == "";
    } else if |words| > 1 {
      var rest := Join(words[1..], ' ');
      var all := Join(words, ' ');
      assert all == words[0] + ([' '] + rest);
      UntilSpaceOf(words[0], [' '] + rest);
      assert all[..|words[0]|] == words[0];
      assert all[|words[0]|..] == [' '] + rest;
      assert ([' '] + rest)[1..] == rest;
      FieldsJoin(words[1..]);
    }
  }

  lemma {:induction false} FieldReads(key: string, value: Option<string>)
    requires NoSpace(key) && '=' !in key && (value.Some? ==> NoSpace(value.value)) && (value.None? ==> key != "")
    ensures var f := Field(key, value); Word(f) && KeyOf(f) == key && ValueOf(f) == value
  {
    match value
    case None =>
      UntilOf(key, '=', "");
      assert key + "" == key;
    case Some(v) =>
      assert Field(key, value) == key + ("=" + v);
      UntilOf(key, '=', "=" + v);
  }

  /** The fields of a list of keys read back as the entries of those keys. */
  ghost predicate ReadBack(args: Args, order: seq<string>)
    requires forall i :: 0 <= i < |order| ==> order[i] in args
  {
    var read := FromFields(FieldsOf(args, order));
    forall k :: (k in read <==> k in order) && (k in order ==> read[k] == args[k])
  }

  lemma {:induction false} OneEntryMore(args: Args, before: seq<string>, last: string)
    requires WellFormed(args) && last in args && last !in before
    requires forall i :: 0 <= i < |before| ==> before[i] in args
    requires ReadBack(args, before)
    ensures ReadBack(args, before + [last])
  {
    var fields, field := FieldsOf(args, before), Field(last, args[last]);
    FieldReads(last, args[last]);
    assert FieldsOf(args, before + [last]) == fields + [field];
    assert (fields + [field])[..|fields|] == fields;
    assert FromFields(fields + [field]) == FromFields(fields)[last := args[last]];
  }

  lemma {:induction false} FromFieldsOf(args: Args, order: seq<string>)
    requires WellFormed(args)
    requires forall i, j :: 0 <= i < j < |order| ==> order[i] != order[j]
    requires forall i :: 0 <= i < |order| ==> order[i] in args
    ensures ReadBack(args, order)
    decreases |order|
  {
    if order == [] {
      assert FieldsOf(args, order) == [];
    } else {
      var before, last := LastKey(args, order);
      FromFieldsOf(args, before);
      OneEntryMore(args, before, last);
    }
  }

  lemma {:induction false} LastKey(args: Args, order: seq<string>) returns (before: seq<string>, last: string)
    requires order != []
    requires forall i, j :: 0 <= i < j < |order| ==> order[i] != order[j]
    requires forall i :: 0 <= i < |order| ==> order[i] in args
    ensures order == before + [last] && |before| < |order|
    ensures last in args && last !in before
    ensures forall i, j :: 0 <= i < j < |before| ==> before[i] != before[j]
    ensures forall i :: 0 <= i < |before| ==> before[i] in args
  {
    before, last := order[..|order| - 1], order[|order| - 1];
  }

  /** Printing in any order and parsing gives the map back. */
  lemma {:induction false} ParsePrint(args: Args, order: seq<string>)
    requires WellFormed(args) && Order(args, order)
    ensures Parsed(Printed(args, order)) == args
  {
    forall i | 0 <= i < |order|
      ensures Word(FieldsOf(args, order)[i])
    {
      FieldReads(order[i], args[order[i]]);
    }
    FieldsJoin(FieldsOf(args, order));
    FromFieldsOf(args, order);
  }

  /** What is printed is one field for each entry, in the order given. */
  lemma {:induction false} PrintedFields(args: Args, order: seq<string>)
    requires WellFormed(args) && Order(args, order)
    ensures var fields := Fields(Printed(args, order));
            && |fields| == |order|
            && forall i :: 0 <= i < |order| ==> Gives(fields[i], order[i], args[order[i]])
  {
    forall i | 0 <= i < |order|
      ensures Word(FieldsOf(args, order)[i]) && Gives(FieldsOf(args, order)[i], order[i], args[order[i]])
    {
      FieldReads(order[i], args[order[i]]);
    }
    FieldsJoin(FieldsOf(args, order));
  }

  lemma {:induction false} FromFieldsWellFormed(fields: seq<string>)
    requires forall i :: 0 <= i < |fields| ==> Word(fields[i])
    ensures WellFormed(FromFields(fields))
  {
    if fields != [] {
      FromFieldsWellFormed(fields[..|fields| - 1]);
      var last := fields[|fields| - 1];
      assert Word(last);
      var n := Until(last, '=');
      if n == |last| {
        assert last[..n] == last;
      }
    }
  }

  /** Everything the parser returns can be carried. */
  lemma {:induction false} ParsedWellFormed(raw: string)
    ensures WellFormed(Parsed(raw))
  {
    FromFieldsWellFormed(Fields(raw));
  }

  /** A map survives printing and parsing exactly when it is well formed, whatever the order. */
  lemma {:induction false} RoundTripIff(args: Args, order: seq<string>)
    requires Order(args, order)
    ensures Parsed(Printed(args, order)) == args <==> WellFormed(args)
  {
    if WellFormed(args) {
      ParsePrint(args, order);
    }
    ParsedWellFormed(Printed(args, order));
  }

  /** parse, print, parse is parse, on every string. */
  lemma {:induction false} ParsePrintParse(raw: string, order: seq<string>)
    requires Order(Parsed(raw), order)
    ensures Parsed(Printed(Parsed(raw), order)) == Parsed(raw)
  {
    ParsedWellFormed(raw);
    ParsePrint(Parsed(raw), order);
  }
}
