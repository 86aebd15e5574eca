/** The configuration helpers of the settings window: reading and writing a
    nested dictionary through a dotted key such as `email.smtp_server`, and
    the way `save_config` turns the form's fields into the saved
    dictionary (the recipients list is split, placeholder strings are
    skipped).  A configuration is a value; the window's widgets and the
    YAML file are left out. */
module GuiConfig {
  import opened Common
  import opened Strings

  /** A node of the configuration: a dictionary, or one of the leaf values
      the form's variables and the recipients list produce. */
  datatype Node = Dict(entries: map<string, Node>) | Str(s: string) | Num(n: int) | Flag(b: bool) | Items(xs: seq<string>)

  /** The node a path of keys leads to, or `None` as soon as the walk
      reaches something that is not a dictionary or a missing key. */
  function At(v: Node, path: seq<string>): Option<Node>
    decreases |path|
  {
    if path == [] then Some(v)
    else if v.Dict? && path[0] in v.entries then At(v.entries[path[0]], path[1..])
    else None
  }

  /** `key_path.split('.')`. */
  function Keys(keyPath: string): (r: seq<string>)
    ensures |r| >= 1
  {
    Split(keyPath, ".")
  }

  /** `get_nested_value`. */
  function GetNested(config: Node, keyPath: string): Option<Node>
  {
    At(config, Keys(keyPath))
  }

  /** `get_nested_value` with its loop over the keys. */
  method GetNestedValue(config: Node, keyPath: string) returns (r: Option<Node>)
    ensures r == GetNested(config, keyPath)
  {
    var keys := Keys(keyPath);
    var value := config;
    var i := 0;
    while i < |keys|
      invariant 0 <= i <= |keys|
      invariant At(config, keys) == At(value, keys[i..])
    {
      var key := keys[i];
      assert keys[i..][1..] == keys[i + 1..];
      if value.Dict? && key in value.entries {
        value := value.entries[key];
      } else {
        return None;
      }
      i := i + 1;
    }
    return Some(value);
  }

  /** Walking `p` and then `q` is walking `p + q`. */
  lemma {:induction false} AtAppend(v: Node, p: seq<string>, q: seq<string>)
    ensures At(v, p + q) == if At(v, p).Some? then At(At(v, p).value, q) else None
    decreases |p|
  {
    if p != [] {
      assert (p + q)[0] == p[0] && (p + q)[1..] == p[1..] + q;
      if v.Dict? && p[0] in v.entries {
        AtAppend(v.entries[p[0]], p[1..], q);
      }
    } else {
      assert p + q == q;
    }
  }

  /** The walk stops at key `i`: the node reached by the first `i` keys
      exists but is not a dictionary holding key `i`. */
  predicate Blocked(v: Node, path: seq<string>, i: nat)
    requires i < |path|
  {
    var n := At(v, path[..i]);
    n.Some? && !(n.value.Dict? && path[i] in n.value.entries)
  }

  /** The walk from `i` on, when it gets past key `i`. */
  lemma StepPast(v: Node, path: seq<string>, i: nat)
    requires i < |path| && !Blocked(v, path, i) && At(v, path[..i]).Some?
    ensures At(v, path[..i + 1]) == Some(At(v, path[..i]).value.entries[path[i]])
  {
    assert path[..i + 1] == path[..i] + [path[i]];
    AtAppend(v, path[..i], [path[i]]);
  }

  /** `get_nested_value` gives `None` exactly when some key of the path
      meets a non-dictionary or is missing. */
  lemma GetNestedNone(v: Node, path: seq<string>)
    ensures At(v, path).None? <==> exists i | 0 <= i < |path| :: Blocked(v, path, i)
  {
    if At(v, path).None? {
      var i := FirstBlocked(v, path);
    } else {
      forall i | 0 <= i < |path|
        ensures !Blocked(v, path, i)
      {
        assert path == path[..i] + path[i..];
        AtAppend(v, path[..i], path[i..]);
        assert path[i..][0] == path[i];
      }
    }
  }

  /** Where a walk that gives `None` stops. */
  lemma {:induction false} FirstBlocked(v: Node, path: seq<string>) returns (i: nat)
    requires At(v, path).None?
    ensures i < |path| && Blocked(v, path, i)
    decreases |path|
  {
    if v.Dict? && path[0] in v.entries {
      var j := FirstBlocked(v.entries[path[0]], path[1..]);
      i := j + 1;
      assert path[..i] == [path[0]] + path[1..][..j];
      AtAppend(v, [path[0]], path[1..][..j]);
      assert path[1..][j] == path[i];
    } else {
      i := 0;
      assert path[..0] == [];
    }
  }

  /** `set_nested_value`: the intermediate dictionaries are walked, a
      missing one is created empty, and the last key is overwritten.
      `None` stands for the TypeError raised when the walk meets a node
      that is not a dictionary. */
  function SetAt(v: Node, keys: seq<string>, x: Node): Option<Node>
    requires |keys| >= 1
    decreases |keys|
  {
    if !v.Dict? then None
    else if |keys| == 1 then Some(Dict(v.entries[keys[0] := x]))
    else
      var child := if keys[0] in v.entries then v.entries[keys[0]] else Dict(map[]);
      match SetAt(child, keys[1..], x)
      case None => None
      case Some(c) => Some(Dict(v.entries[keys[0] := c]))
  }

  function SetNested(config: Node, keyPath: string, x: Node): Option<Node>
  {
    SetAt(config, Keys(keyPath), x)
  }

  /** The node the first `i` keys lead to is a dictionary or missing. */
  predicate ContainerOk(v: Node, keys: seq<string>, i: nat)
    requires i <= |keys|
  {
    var n := At(v, keys[..i]);
    n.None? || n.value.Dict?
  }

  /** Setting succeeds exactly when every container on the path, the top
      one included, is a dictionary or still missing. */
  lemma {:induction false} SetSucceedsIff(v: Node, keys: seq<string>, x: Node)
    requires |keys| >= 1
    ensures SetAt(v, keys, x).Some? <==> forall i | 0 <= i < |keys| :: ContainerOk(v, keys, i)
    decreases |keys|
  {
    assert keys[..0] == [];
    if !v.Dict? {
      assert !ContainerOk(v, keys, 0);
    } else if |keys| == 1 {
      assert ContainerOk(v, keys, 0);
    } else {
      var k := keys[0];
      var child := if k in v.entries then v.entries[k] else Dict(map[]);
      SetSucceedsIff(child, keys[1..], x);
      forall i | 1 <= i < |keys|
        ensures ContainerOk(v, keys, i) <==> ContainerOk(child, keys[1..], i - 1)
      {
        assert keys[..i] == [k] + keys[1..][..i - 1];
        AtAppend(v, [k], keys[1..][..i - 1]);
        if k !in v.entries {
          MissingStaysMissing(keys[1..][..i - 1]);
        }
      }
      if forall i | 0 <= i < |keys| :: ContainerOk(v, keys, i) {
        forall j | 0 <= j < |keys| - 1 ensures ContainerOk(child, keys[1..], j) {
          assert ContainerOk(v, keys, j + 1);
        }
      }
      if forall j | 0 <= j < |keys| - 1 :: ContainerOk(child, keys[1..], j) {
        forall i | 0 <= i < |keys| ensures ContainerOk(v, keys, i) {
          if i > 0 {
            assert ContainerOk(child, keys[1..], i - 1);
          }
        }
      }
    }
  }

  /** A created intermediate dictionary is empty, so any walk into it that
      goes on stops there. */
  lemma MissingStaysMissing(rest: seq<string>)
    ensures At(Dict(map[]), rest) == if rest == [] then Some(Dict(map[])) else None
  {
  }

  /** After a successful set, the path leads to the value set, and a
      longer path continues inside it. */
  lemma {:induction false} SetPlacesValue(v: Node, keys: seq<string>, x: Node, p: seq<string>)
    requires |keys| >= 1 && SetAt(v, keys, x).Some?
    requires keys <= p
    ensures At(SetAt(v, keys, x).value, p) == At(x, p[|keys|..])
    decreases |keys|
  {
    var k := keys[0];
    assert p[0] == k;
    if |keys| > 1 {
      var child := if k in v.entries then v.entries[k] else Dict(map[]);
      assert keys[1..] <= p[1..];
      SetPlacesValue(child, keys[1..], x, p[1..]);
      assert p[1..][|keys| - 1..] == p[|keys|..];
    }
  }

  /** Reading back what was set gives the value set. */
  lemma GetAfterSet(config: Node, keyPath: string, x: Node)
    requires SetNested(config, keyPath, x).Some?
    ensures GetNested(SetNested(config, keyPath, x).value, keyPath) == Some(x)
  {
    var keys := Keys(keyPath);
    SetPlacesValue(config, keys, x, keys);
    assert keys[|keys|..] == [];
  }

  /** `p` leaves the path `keys` at some key: neither is a prefix of the
      other. */
  predicate Diverges(p: seq<string>, keys: seq<string>)
  {
    exists i | 0 <= i < |p| && i < |keys| :: p[i] != keys[i]
  }

  /** Nothing off the path changes: every path that leaves `keys` leads
      where it led before. */
  lemma {:induction false} SetLeavesOthers(v: Node, keys: seq<string>, x: Node, p: seq<string>)
    requires |keys| >= 1 && SetAt(v, keys, x).Some?
    requires Diverges(p, keys)
    ensures At(SetAt(v, keys, x).value, p) == At(v, p)
    decreases |keys|
  {
    var k := keys[0];
    var w := SetAt(v, keys, x).value;
    var i :| 0 <= i < |p| && i < |keys| && p[i] != keys[i];
    if p[0] != k {
      assert w.entries == v.entries[k := w.entries[k]];
    } else {
      assert i > 0;
      var child := if k in v.entries then v.entries[k] else Dict(map[]);
      assert p[1..][i - 1] != keys[1..][i - 1];
      SetLeavesOthers(child, keys[1..], x, p[1..]);
      if k !in v.entries {
        MissingStaysMissing(p[1..]);
      }
    }
  }

  /** The keys of the dictionary a walk reaches, or none. */
  function KeysAt(n: Option<Node>): set<string>
  {
    if n.Some? && n.value.Dict? then n.value.entries.Keys else {}
  }

  /** Along the path every container is a dictionary afterwards, holding
      the keys it held before (none, if it was missing) and the next key
      of the path: only missing dictionaries are created. */
  lemma {:induction false} SetCreatesDicts(v: Node, keys: seq<string>, x: Node, i: nat)
    requires |keys| >= 1 && SetAt(v, keys, x).Some? && i < |keys|
    ensures var n := At(SetAt(v, keys, x).value, keys[..i]);
      n.Some? && n.value.Dict? && n.value.entries.Keys == KeysAt(At(v, keys[..i])) + {keys[i]}
    decreases |keys|
  {
    var k := keys[0];
    if i > 0 {
      var child := if k in v.entries then v.entries[k] else Dict(map[]);
      SetCreatesDicts(child, keys[1..], x, i - 1);
      assert keys[..i] == [k] + keys[1..][..i - 1];
      AtAppend(SetAt(v, keys, x).value, [k], keys[1..][..i - 1]);
      AtAppend(v, [k], keys[1..][..i - 1]);
      if k !in v.entries {
        MissingStaysMissing(keys[1..][..i - 1]);
      }
    } else {
      assert keys[..0] == [];
    }
  }

  // ---------------------------------------------------------------------
  // save_config

  /** `[e.strip() for e in pieces if e.strip()]`. */
  function CleanRecipients(pieces: seq<string>): seq<string>
  {
    if pieces == [] then []
    else
      var r := CleanRecipients(pieces[..|pieces| - 1]);
      var e := Strip(pieces[|pieces| - 1]);
      if e != [] then r + [e] else r
  }

  /** The recipients field split on ',', trimmed, empty entries dropped. */
  function SplitRecipients(s: string): seq<string>
  {
    CleanRecipients(Split(s, ","))
  }

  /** `e` is a non-empty piece once trimmed. */
  predicate TrimsTo(pieces: seq<string>, e: string)
  {
    e != [] && exists k | 0 <= k < |pieces| :: Strip(pieces[k]) == e
  }

  /** No recipient is empty or padded with whitespace. */
  lemma {:induction false} CleanRecipientsTrimmed(pieces: seq<string>)
    ensures forall i | 0 <= i < |CleanRecipients(pieces)| ::
      CleanRecipients(pieces)[i] != [] && Strip(CleanRecipients(pieces)[i]) == CleanRecipients(pieces)[i]
  {
    if pieces != [] {
      CleanRecipientsTrimmed(pieces[..|pieces| - 1]);
      StripIdempotent(pieces[|pieces| - 1]);
    }
  }

  /** The recipients are exactly the non-empty trimmed pieces. */
  lemma {:induction false} CleanRecipientsMembers(pieces: seq<string>)
    ensures forall e :: e in CleanRecipients(pieces) <==> TrimsTo(pieces, e)
  {
    if pieces != [] {
      var init, last := pieces[..|pieces| - 1], pieces[|pieces| - 1];
      assert pieces == init + [last];
      CleanRecipientsMembers(init);
      var tail := if Strip(last) != [] then [Strip(last)] else [];
      assert CleanRecipients(pieces) == CleanRecipients(init) + tail;
      forall e
        ensures e in CleanRecipients(pieces) <==> TrimsTo(pieces, e)
      {
        TrimsToSnoc(init, last, e);
      }
    }
  }

  /** A piece more: `e` comes from the old pieces or from the new one. */
  lemma TrimsToSnoc(init: seq<string>, last: string, e: string)
    ensures TrimsTo(init + [last], e) <==> TrimsTo(init, e) || (e != [] && Strip(last) == e)
  {
    var pieces := init + [last];
    if TrimsTo(pieces, e) {
      var k :| 0 <= k < |pieces| && Strip(pieces[k]) == e;
      if k < |init| {
        assert pieces[k] == init[k];
      }
    }
    if TrimsTo(init, e) {
      var k :| 0 <= k < |init| && Strip(init[k]) == e;
      assert pieces[k] == init[k];
    }
    if e != [] && Strip(last) == e {
      assert pieces[|init|] == last;
    }
  }

  lemma SplitRecipientsCorrect(s: string)
    ensures forall i | 0 <= i < |SplitRecipients(s)| ::
      SplitRecipients(s)[i] != [] && Strip(SplitRecipients(s)[i]) == SplitRecipients(s)[i]
    ensures forall e :: e in SplitRecipients(s) <==> TrimsTo(Split(s, ","), e)
    ensures forall i | 0 <= i < |SplitRecipients(s)| :: ',' !in SplitRecipients(s)[i]
  {
    var pieces := Split(s, ",");
    CleanRecipientsTrimmed(pieces);
    CleanRecipientsMembers(pieces);
    assert SplitRecipients(s) == CleanRecipients(pieces);
    SplitPiecesAvoidSeparator(s, ",");
    forall i | 0 <= i < |SplitRecipients(s)|
      ensures ',' !in SplitRecipients(s)[i]
    {
      var e := SplitRecipients(s)[i];
      assert TrimsTo(pieces, e);
      var k :| 0 <= k < |pieces| && Strip(pieces[k]) == e;
      NoCommaAfterStrip(pieces[k]);
    }
  }

  /** Trimming a piece that holds no comma leaves none. */
  lemma NoCommaAfterStrip(piece: string)
    requires !Contains(piece, ",")
    ensures ',' !in Strip(piece)
  {
    StripIsSlice(piece);
    var a, b :| 0 <= a <= b <= |piece| && Strip(piece) == piece[a..b];
    ContainsIff(piece, ",");
    forall j | 0 <= j < |piece|
      ensures piece[j] != ','
    {
      assert !OccursAt(piece, ",", j);
      assert piece[j..j + 1] == [piece[j]];
    }
  }

  /** Recipients already clean are kept as they are. */
  lemma {:induction false} CleanRecipientsOfClean(xs: seq<string>)
    requires forall k | 0 <= k < |xs| :: xs[k] != [] && Strip(xs[k]) == xs[k]
    ensures CleanRecipients(xs) == xs
  {
    if xs != [] {
      CleanRecipientsOfClean(xs[..|xs| - 1]);
      assert xs[..|xs| - 1] + [xs[|xs| - 1]] == xs;
    }
  }

  /** `load_config` shows a recipients list joined with ','; saving that
      text gives the list back when its addresses are non-empty, unpadded
      and free of commas. */
  lemma RecipientsRoundTrip(xs: seq<string>)
    requires forall k | 0 <= k < |xs| :: xs[k] != [] && Strip(xs[k]) == xs[k] && ',' !in xs[k]
    ensures SplitRecipients(Join(xs, ",")) == xs
  {
    if xs == [] {
      assert Split([], ",") == [[]];
    } else {
      SplitJoinChar(xs, ',');
      assert [','] == ",";
      CleanRecipientsOfClean(xs);
    }
  }

  /** What a form variable's `get()` returns. */
  datatype FormValue = Text(s: string) | Whole(n: int) | Bool(b: bool)

  /** A string the form holds before the user filled it in. */
  predicate Placeholder(s: string)
  {
    Contains(s, "YOUR_") || s == []
  }

  /** One field as `save_config` treats it: the recipients text becomes a
      list, and a placeholder string is skipped (`None`). */
  function Prepare(key: string, value: FormValue): (r: Option<Node>)
    ensures r.Some? && r.value.Str? ==> !Placeholder(r.value.s)
    ensures r.Some? ==> !r.value.Dict?
  {
    var v := match value
      case Text(s) => if key == "email.recipients" then Items(SplitRecipients(s)) else Str(s)
      case Whole(n) => Num(n)
      case Bool(b) => Flag(b);
    if v.Str? && Placeholder(v.s) then None else Some(v)
  }

  /** A text field other than the recipients is kept exactly when it is
      not a placeholder. */
  lemma PrepareText(key: string, s: string)
    requires key != "email.recipients"
    ensures Prepare(key, Text(s)) == if Placeholder(s) then None else Some(Str(s))
  {
  }

  /** The recipients field is never skipped: the placeholder test sees a
      list, so even an empty or `YOUR_` text is saved as a list. */
  lemma RecipientsNeverSkipped(s: string)
    ensures Prepare("email.recipients", Text(s)) == Some(Items(SplitRecipients(s)))
  {
  }

  /** The dictionary `save_config` starts from. */
  function DefaultConfig(): Node
  {
    Dict(map[
      "api_keys" := Dict(map[]),
      "database" := Dict(map["path" := Str("data/sentiment.db")]),
      "collection" := Dict(map[]),
      "paper_trading" := Dict(map[]),
      "backtesting" := Dict(map[]),
      "thresholds" := Dict(map[]),
      "email" := Dict(map[]),
      "report" := Dict(map[])])
  }

  /** The fields from the first on, applied to `config`; `None` for a
      TypeError, which aborts the save. */
  function SaveFrom(config: Node, fields: seq<(string, FormValue)>): Option<Node>
    decreases |fields|
  {
    if fields == [] then Some(config)
    else
      var key := fields[0].0;
      match Prepare(key, fields[0].1)
      case None => SaveFrom(config, fields[1..])
      case Some(v) =>
        match SetNested(config, key, v)
        case None => None
        case Some(c) => SaveFrom(c, fields[1..])
  }

  /** `save_config` up to the write: the loop over the form's fields in
      their insertion order. */
  method SaveConfig(fields: seq<(string, FormValue)>) returns (r: Option<Node>)
    ensures r == SaveFrom(DefaultConfig(), fields)
  {
    var config := DefaultConfig();
    var i := 0;
    while i < |fields|
      invariant 0 <= i <= |fields|
      invariant SaveFrom(DefaultConfig(), fields) == SaveFrom(config, fields[i..])
    {
      var (key, value) := fields[i];
      assert fields[i..][1..] == fields[i + 1..];
      var v := Prepare(key, value);
      if v.Some? {
        var c := SetNested(config, key, v.value);
        if c.None? {
          return None;
        }
        config := c.value;
      }
      i := i + 1;
    }
    return Some(config);
  }

  /** No string in the configuration, at any path, is a placeholder. */
  ghost predicate NoPlaceholders(c: Node)
  {
    forall p :: At(c, p).Some? && At(c, p).value.Str? ==> !Placeholder(At(c, p).value.s)
  }

  /** Every path leaves `keys`, lies along it, or extends it. */
  lemma PathCases(p: seq<string>, keys: seq<string>)
    ensures Diverges(p, keys) || keys <= p || (|p| < |keys| && p == keys[..|p|])
  {
    if !Diverges(p, keys) {
      if |p| < |keys| {
        assert p == keys[..|p|];
      } else {
        assert keys == p[..|keys|];
      }
    }
  }

  /** Setting a value that is not a dictionary and not a placeholder
      string keeps the configuration free of placeholders. */
  lemma SetKeepsNoPlaceholders(c: Node, keys: seq<string>, x: Node)
    requires |keys| >= 1 && SetAt(c, keys, x).Some? && NoPlaceholders(c)
    requires !x.Dict? && (x.Str? ==> !Placeholder(x.s))
    ensures NoPlaceholders(SetAt(c, keys, x).value)
  {
    var w := SetAt(c, keys, x).value;
    forall p | At(w, p).Some? && At(w, p).value.Str?
      ensures !Placeholder(At(w, p).value.s)
    {
      PathCases(p, keys);
      if Diverges(p, keys) {
        SetLeavesOthers(c, keys, x, p);
      } else if keys <= p {
        SetPlacesValue(c, keys, x, p);
      } else {
        SetCreatesDicts(c, keys, x, |p|);
      }
    }
  }

  /** A leaf that is not a placeholder string holds none. */
  lemma LeafNoPlaceholders(x: Node)
    requires !x.Dict? && (x.Str? ==> !Placeholder(x.s))
    ensures NoPlaceholders(x)
  {
    forall p | At(x, p).Some? && At(x, p).value.Str?
      ensures !Placeholder(At(x, p).value.s)
    {
      assert p == [];
    }
  }

  /** Putting an entry with no placeholder into a dictionary with none
      leaves none. */
  lemma PutNoPlaceholders(m: map<string, Node>, k: string, x: Node)
    requires NoPlaceholders(Dict(m)) && NoPlaceholders(x)
    ensures NoPlaceholders(Dict(m[k := x]))
  {
    var d := Dict(m[k := x]);
    forall p | At(d, p).Some? && At(d, p).value.Str?
      ensures !Placeholder(At(d, p).value.s)
    {
      assert p != [];
      if p[0] == k {
        assert At(d, p) == At(x, p[1..]);
      } else {
        assert At(d, p) == At(Dict(m), p);
      }
    }
  }

  /** The starting dictionary holds one string, the database path. */
  lemma DefaultNoPlaceholders()
    ensures NoPlaceholders(DefaultConfig())
  {
    var path := "data/sentiment.db";
    var empty: map<string, Node> := map[];
    assert NoPlaceholders(Dict(empty)) by {
      forall p | At(Dict(empty), p).Some? ensures p == [] { }
    }
    NotFoundWithout(path, "YOUR_");
    LeafNoPlaceholders(Str(path));
    PutNoPlaceholders(empty, "path", Str(path));
    var e, db := Dict(empty), Dict(empty["path" := Str(path)]);
    var m1 := empty["api_keys" := e];
    PutNoPlaceholders(empty, "api_keys", e);
    var m2 := m1["database" := db];
    PutNoPlaceholders(m1, "database", db);
    var m3 := m2["collection" := e];
    PutNoPlaceholders(m2, "collection", e);
    var m4 := m3["paper_trading" := e];
    PutNoPlaceholders(m3, "paper_trading", e);
    var m5 := m4["backtesting" := e];
    PutNoPlaceholders(m4, "backtesting", e);
    var m6 := m5["thresholds" := e];
    PutNoPlaceholders(m5, "thresholds", e);
    var m7 := m6["email" := e];
    PutNoPlaceholders(m6, "email", e);
    PutNoPlaceholders(m7, "report", e);
    assert DefaultConfig() == Dict(m7["report" := e]);
  }

  /** Whatever `save_config` writes holds no empty string and none
      containing `YOUR_`. */
  lemma {:induction false} SavedHasNoPlaceholders(c: Node, fields: seq<(string, FormValue)>)
    requires NoPlaceholders(c) && SaveFrom(c, fields).Some?
    ensures NoPlaceholders(SaveFrom(c, fields).value)
    decreases |fields|
  {
    if fields != [] {
      var key := fields[0].0;
      match Prepare(key, fields[0].1)
      case None =>
        SavedHasNoPlaceholders(c, fields[1..]);
      case Some(v) =>
        SetKeepsNoPlaceholders(c, Keys(key), v);
        SavedHasNoPlaceholders(SetNested(c, key, v).value, fields[1..]);
    }
  }

  lemma SaveConfigNoPlaceholders(fields: seq<(string, FormValue)>)
    requires SaveFrom(DefaultConfig(), fields).Some?
    ensures NoPlaceholders(SaveFrom(DefaultConfig(), fields).value)
  {
    DefaultNoPlaceholders();
    SavedHasNoPlaceholders(DefaultConfig(), fields);
  }
}
