/** Settings between JSON and TOML, both ways. TOML has no null, so it drops out; its date and time values have no
    JSON counterpart and become null. Both kinds of table are maps ordered by key. */
module JsonToml {
  import opened Wrappers

  /** A double, as its 64 bits. */
  type Double = n: nat | n < 0x1_0000_0000_0000_0000

  type Int64 = n: int | -0x8000_0000_0000_0000 <= n < 0x8000_0000_0000_0000

  /** The JSON library keeps integers signed or, above the signed range, unsigned. */
  type JsonInt = n: int | -0x8000_0000_0000_0000 <= n < 0x1_0000_0000_0000_0000

  datatype Json =
    | Null
    | Bool(b: bool)
    | Integer(n: JsonInt)
    | Float(bits: Double)
    | String(s: string)
    | Array(items: seq<Json>)
    | Object(members: map<string, Json>)
    | Binary(bytes: seq<nat>)

  datatype Toml =
    | TBool(b: bool)
    | TInteger(n: Int64)
    | TFloat(bits: Double)
    | TString(s: string)
    | TArray(items: seq<Toml>)
    | TTable(members: map<string, Toml>)
    | TDateTime(text: string)

  /** Reading an integer as a signed one wraps around. */
  function ToInt64(n: JsonInt): Int64 {
    if n < 0x8000_0000_0000_0000 then n else n - 0x1_0000_0000_0000_0000
  }

  /** Values that have a TOML counterpart. */
  predicate Kept(j: Json) { !j.Null? && !j.Binary? }

  // ---------- JSON to TOML ----------

  function NodeToToml(j: Json): Toml
    requires Kept(j)
    decreases j, 1
  {
    match j
    case Bool(b) => TBool(b)
    case Integer(n) => TInteger(ToInt64(n))
    case Float(bits) => TFloat(bits)
    case String(s) => TString(s)
    case Array(items) => TArray(ArrayToToml(items))
    case Object(members) => TTable(ObjectToToml(j))
  }

  function ArrayToToml(items: seq<Json>): seq<Toml>
    decreases items, 0
  {
    if items == [] then []
    else
      var n := |items| - 1;
      ArrayToToml(items[..n]) + if Kept(items[n]) then [NodeToToml(items[n])] else []
  }

  function ObjectToToml(j: Json): map<string, Toml>
    requires j.Object?
    decreases j, 0
  {
    map k | k in j.members && Kept(j.members[k]) :: NodeToToml(j.members[k])
  }

  method JsonArrayToToml(items: seq<Json>) returns (tomlArray: seq<Toml>)
    ensures tomlArray == ArrayToToml(items)
    decreases items, 0
  {
    tomlArray := [];
    for i := 0 to |items|
      invariant tomlArray == ArrayToToml(items[..i])
    {
      var item := items[i];
      assert items[..i + 1][..i] == items[..i];
      match item
      case Null =>
      case Binary(_) =>
      case Bool(b) => tomlArray := tomlArray + [TBool(b)];
      case Integer(n) => tomlArray := tomlArray + [TInteger(ToInt64(n))];
      case Float(bits) => tomlArray := tomlArray + [TFloat(bits)];
      case String(s) => tomlArray := tomlArray + [TString(s)];
      case Array(inner) =>
        var a := JsonArrayToToml(inner);
        tomlArray := tomlArray + [TArray(a)];
      case Object(_) =>
        var t := JsonObjectToToml(item);
        tomlArray := tomlArray + [TTable(t)];
    }
    assert items[..|items|] == items;
  }

  method JsonObjectToToml(j: Json) returns (tomlTable: map<string, Toml>)
    requires j.Object?
    ensures tomlTable == ObjectToToml(j)
    decreases j, 0
  {
    var members := j.members;
    tomlTable := map[];
    var left := members.Keys;
    while left != {}
      invariant left <= members.Keys
      invariant tomlTable == map k | k in members && k !in left && Kept(members[k]) :: NodeToToml(members[k])
      decreases |left|
    {
      var key :| key in left;
      left := left - {key};
      var value := members[key];
      match value
      case Null =>
      case Binary(_) =>
      case Bool(b) => tomlTable := tomlTable[key := TBool(b)];
      case Integer(n) => tomlTable := tomlTable[key := TInteger(ToInt64(n))];
      case Float(bits) => tomlTable := tomlTable[key := TFloat(bits)];
      case String(s) => tomlTable := tomlTable[key := TString(s)];
      case Array(inner) =>
        var a := JsonArrayToToml(inner);
        tomlTable := tomlTable[key := TArray(a)];
      case Object(_) =>
        var t := JsonObjectToToml(value);
        tomlTable := tomlTable[key := TTable(t)];
    }
  }

  /** Only an object can be a TOML document; anything else is refused. */
  method JsonToToml(j: Json) returns (table: Option<map<string, Toml>>)
    ensures table == if j.Object? then Some(ObjectToToml(j)) else None
  {
    if !j.Object? {
      return None;
    }
    var t := JsonObjectToToml(j);
    return Some(t);
  }

  // ---------- TOML to JSON ----------

  function NodeToJson(t: Toml): Json
    decreases t, 1
  {
    match t
    case TBool(b) => Bool(b)
    case TInteger(n) => Integer(n)
    case TFloat(bits) => Float(bits)
    case TString(s) => String(s)
    case TArray(items) => Array(ArrayToJson(items))
    case TTable(_) => Object(TableToJson(t))
    case TDateTime(_) => Null
  }

  function ArrayToJson(items: seq<Toml>): seq<Json>
    decreases items, 0
  {
    if items == [] then []
    else
      var n := |items| - 1;
      ArrayToJson(items[..n]) + [NodeToJson(items[n])]
  }

  function TableToJson(t: Toml): map<string, Json>
    requires t.TTable?
    decreases t, 0
  {
    map k | k in t.members :: NodeToJson(t.members[k])
  }

  method TomlArrayToJson(items: seq<Toml>) returns (jsonArray: seq<Json>)
    ensures jsonArray == ArrayToJson(items)
    decreases items, 0
  {
    jsonArray := [];
    for i := 0 to |items|
      invariant jsonArray == ArrayToJson(items[..i])
    {
      assert items[..i + 1][..i] == items[..i];
      var j := TomlNodeToJson(items[i]);
      jsonArray := jsonArray + [j];
    }
    assert items[..|items|] == items;
  }

  method TomlTableToJson(t: Toml) returns (jsonObject: map<string, Json>)
    requires t.TTable?
    ensures jsonObject == TableToJson(t)
    decreases t, 0
  {
    var members := t.members;
    jsonObject := map[];
    var left := members.Keys;
    while left != {}
      invariant left <= members.Keys
      invariant jsonObject == map k | k in members && k !in left :: NodeToJson(members[k])
      decreases |left|
    {
      var key :| key in left;
      left := left - {key};
      var j := TomlNodeToJson(members[key]);
      jsonObject := jsonObject[key := j];
    }
  }

  method TomlNodeToJson(t: Toml) returns (j: Json)
    ensures j == NodeToJson(t)
    decreases t, 1
  {
    match t
    case TBool(b) => return Bool(b);
    case TInteger(n) => return Integer(n);
    case TFloat(bits) => return Float(bits);
    case TString(s) => return String(s);
    case TArray(items) =>
      var a := TomlArrayToJson(items);
      return Array(a);
    case TTable(_) =>
      var o := TomlTableToJson(t);
      return Object(o);
    case TDateTime(_) => return Null;
  }

  // ---------- what survives ----------

  /** The value with everything TOML cannot hold removed, at every depth. */
  function Pruned(j: Json): Json
    decreases j, 1
  {
    match j
    case Array(items) => Array(PrunedItems(items))
    case Object(_) => Object(PrunedMembers(j))
    case _ => j
  }

  function PrunedItems(items: seq<Json>): seq<Json>
    decreases items, 0
  {
    if items == [] then []
    else
      var n := |items| - 1;
      PrunedItems(items[..n]) + if Kept(items[n]) then [Pruned(items[n])] else []
  }

  function PrunedMembers(j: Json): map<string, Json>
    requires j.Object?
    decreases j, 0
  {
    map k | k in j.members && Kept(j.members[k]) :: Pruned(j.members[k])
  }

  /** Every integer in the value is in the signed range. */
  predicate Signed(j: Json)
    decreases j
  {
    match j
    case Integer(n) => n < 0x8000_0000_0000_0000
    case Array(items) => forall i | 0 <= i < |items| :: Signed(items[i])
    case Object(members) => forall k | k in members :: Signed(members[k])
    case _ => true
  }

  /** Through TOML and back a value keeps everything but its nulls, exactly when its integers are in the signed
      64-bit range. */
  lemma {:induction false} JsonSurvivesIff(j: Json)
    requires Kept(j)
    ensures NodeToJson(NodeToToml(j)) == Pruned(j) <==> Signed(j)
    decreases j, 1
  {
    match j
    case Array(items) => ItemsSurviveIff(items);
    case Object(_) => MembersSurviveIff(j);
    case _ =>
  }

  lemma {:induction false} ItemsSurviveIff(items: seq<Json>)
    ensures |ArrayToJson(ArrayToToml(items))| == |PrunedItems(items)|
    ensures ArrayToJson(ArrayToToml(items)) == PrunedItems(items) <==> forall i | 0 <= i < |items| :: Signed(items[i])
    decreases items, 0
  {
    if items != [] {
      var n := |items| - 1;
      var before, last := items[..n], items[n];
      ItemsSurviveIff(before);
      assert (forall i | 0 <= i < |items| :: Signed(items[i])) <==> (forall i | 0 <= i < n :: Signed(before[i])) && Signed(last) by {
        assert forall i | 0 <= i < n :: before[i] == items[i];
      }
      if Kept(last) {
        JsonSurvivesIff(last);
        LastToJson(ArrayToToml(before), NodeToToml(last));
        SameEnds(ArrayToJson(ArrayToToml(before)), PrunedItems(before), NodeToJson(NodeToToml(last)), Pruned(last));
      } else {
        assert ArrayToToml(before) + [] == ArrayToToml(before) && PrunedItems(before) + [] == PrunedItems(before);
      }
    }
  }

  lemma LastToJson(items: seq<Toml>, last: Toml)
    ensures ArrayToJson(items + [last]) == ArrayToJson(items) + [NodeToJson(last)]
  {
    assert (items + [last])[..|items|] == items;
  }

  lemma SameEnds(a: seq<Json>, b: seq<Json>, x: Json, y: Json)
    requires |a| == |b|
    ensures a + [x] == b + [y] <==> a == b && x == y
  {
    if a + [x] == b + [y] {
      assert a == (a + [x])[..|a|] == (b + [y])[..|b|] == b;
      assert x == (a + [x])[|a|] == (b + [y])[|b|] == y;
    }
  }

  lemma {:induction false} MembersSurviveIff(j: Json)
    requires j.Object?
    ensures TableToJson(TTable(ObjectToToml(j))) == PrunedMembers(j) <==> Signed(j)
    decreases j, 0
  {
    var back, pruned := TableToJson(TTable(ObjectToToml(j))), PrunedMembers(j);
    assert back.Keys == pruned.Keys;
    forall k | k in j.members
      ensures if k in back then back[k] == pruned[k] <==> Signed(j.members[k]) else Signed(j.members[k])
    {
      if Kept(j.members[k]) {
        JsonSurvivesIff(j.members[k]);
      }
    }
    if Signed(j) {
      assert back == pruned;
    }
    if back == pruned {
      forall k | k in j.members
        ensures Signed(j.members[k])
      {
        if k in back {
          assert back[k] == pruned[k];
        }
      }
    }
  }

  /** Pruning leaves no null at any depth. */
  predicate NoNulls(j: Json)
    decreases j
  {
    match j
    case Null => false
    case Binary(_) => false
    case Array(items) => forall i | 0 <= i < |items| :: NoNulls(items[i])
    case Object(members) => forall k | k in members :: NoNulls(members[k])
    case _ => true
  }

  lemma {:induction false} PrunedHasNoNulls(j: Json)
    requires Kept(j)
    ensures NoNulls(Pruned(j)) && Kept(Pruned(j)) && (NoNulls(j) ==> Pruned(j) == j)
    decreases j, 1
  {
    match j
    case Array(items) => PrunedItemsHaveNoNulls(items);
    case Object(members) =>
      forall k | k in members && Kept(members[k])
        ensures NoNulls(Pruned(members[k])) && (NoNulls(members[k]) ==> Pruned(members[k]) == members[k])
      {
        PrunedHasNoNulls(members[k]);
      }
      if NoNulls(j) {
        forall k | k in members
          ensures Kept(members[k])
        {
          assert NoNulls(members[k]);
        }
        assert PrunedMembers(j) == members;
      }
    case _ =>
  }

  lemma {:induction false} PrunedItemsHaveNoNulls(items: seq<Json>)
    ensures forall i | 0 <= i < |PrunedItems(items)| :: NoNulls(PrunedItems(items)[i])
    ensures (forall i | 0 <= i < |items| :: NoNulls(items[i])) ==> PrunedItems(items) == items
    decreases items, 0
  {
    if items != [] {
      var n := |items| - 1;
      PrunedItemsHaveNoNulls(items[..n]);
      assert forall i | 0 <= i < n :: items[..n][i] == items[i];
      if Kept(items[n]) {
        PrunedHasNoNulls(items[n]);
      }
      assert items == items[..n] + [items[n]];
    }
  }

  /** No date or time value anywhere. */
  predicate Supported(t: Toml)
    decreases t
  {
    match t
    case TArray(items) => forall i | 0 <= i < |items| :: Supported(items[i])
    case TTable(members) => forall k | k in members :: Supported(members[k])
    case TDateTime(_) => false
    case _ => true
  }

  /** Through JSON and back a table is unchanged exactly when it holds no date or time value. */
  lemma {:induction false} TomlSurvivesIff(t: Toml)
    requires !t.TDateTime?
    ensures Kept(NodeToJson(t)) && (NodeToToml(NodeToJson(t)) == t <==> Supported(t))
    decreases t, 1
  {
    match t
    case TArray(items) =>
      TomlItemsSurviveIff(items);
      assert Supported(t) <==> AllSupported(items);
    case TTable(_) => TomlMembersSurviveIff(t);
    case _ =>
  }

  lemma {:induction false} TomlItemsSurviveIff(items: seq<Toml>)
    ensures |ArrayToToml(ArrayToJson(items))| <= |items|
    ensures ArrayToToml(ArrayToJson(items)) == items <==> AllSupported(items)
    decreases items, 0
  {
    hide Supported, AllSupported, ArrayToToml, NodeToToml;
    if items == [] {
      EmptyArray();
    } else {
      var n := |items| - 1;
      var before, last := items[..n], items[n];
      TomlItemsSurviveIff(before);
      AllSupportedSplits(before, last);
      var back := ArrayToToml(ArrayToJson(before));
      LastToToml(ArrayToJson(before), NodeToJson(last));
      assert items == before + [last];
      if last.TDateTime? {
        assert back + [] == back;
        assert !Supported(last) by { NotSupported(last); }
      } else {
        TomlSurvivesIff(last);
        SameTomlEnds(back, before, NodeToToml(NodeToJson(last)), last);
      }
    }
  }

  predicate AllSupported(items: seq<Toml>) {
    forall i | 0 <= i < |items| :: Supported(items[i])
  }

  lemma AllSupportedSplits(items: seq<Toml>, last: Toml)
    ensures AllSupported(items + [last]) <==> AllSupported(items) && Supported(last)
  {
    hide Supported;
    assert (items + [last])[|items|] == last;
    assert forall i | 0 <= i < |items| :: (items + [last])[i] == items[i];
  }

  lemma NotSupported(t: Toml)
    requires t.TDateTime?
    ensures !Supported(t)
  {
  }

  lemma EmptyArray()
    ensures ArrayToToml([]) == [] && AllSupported([])
  {
  }

  lemma LastToToml(items: seq<Json>, last: Json)
    ensures ArrayToToml(items + [last]) == ArrayToToml(items) + if Kept(last) then [NodeToToml(last)] else []
  {
    assert (items + [last])[..|items|] == items;
  }

  lemma SameTomlEnds(a: seq<Toml>, b: seq<Toml>, x: Toml, y: Toml)
    requires |a| <= |b|
    ensures a + [x] == b + [y] <==> a == b && x == y
  {
    if a + [x] == b + [y] {
      assert |a + [x]| == |b + [y]|;
      assert a == (a + [x])[..|a|] == (b + [y])[..|b|] == b;
      assert x == (a + [x])[|a|] == (b + [y])[|b|] == y;
    }
  }

  lemma {:induction false} TomlMembersSurviveIff(t: Toml)
    requires t.TTable?
    ensures ObjectToToml(Object(TableToJson(t))) == t.members <==> Supported(t)
    decreases t, 0
  {
    var back := ObjectToToml(Object(TableToJson(t)));
    forall k | k in t.members
      ensures (k in back && back[k] == t.members[k]) <==> Supported(t.members[k])
    {
      if t.members[k].TDateTime? {
        assert TableToJson(t)[k] == NodeToJson(t.members[k]) == Null;
        assert k !in back;
      } else {
        TomlSurvivesIff(t.members[k]);
      }
    }
    if Supported(t) {
      assert back == t.members;
    }
    if back == t.members {
      assert forall k | k in t.members :: k in back && back[k] == t.members[k];
    }
  }

  // ---------- what a value means ----------

  /** The items of an array that are more than nulls. */
  function Values(items: seq<Json>): seq<Json> {
    if items == [] then []
    else
      var n := |items| - 1;
      Values(items[..n]) + if items[n].Null? || items[n].Binary? then [] else [items[n]]
  }

  /** The TOML value says what the JSON value says: the same truth value, number or text, the same items in order and the
      same members, without what TOML has no word for. */
  ghost predicate SameMeaning(t: Toml, j: Json)
    decreases t
  {
    match t
    case TBool(b) => j == Bool(b)
    case TInteger(n) => j.Integer? && (n as int) == if j.n < 0x8000_0000_0000_0000 then j.n else j.n - 0x1_0000_0000_0000_0000
    case TFloat(bits) => j == Float(bits)
    case TString(s) => j == String(s)
    case TArray(items) =>
      j.Array? && |items| == |Values(j.items)| && forall i | 0 <= i < |items| :: SameMeaning(items[i], Values(j.items)[i])
    case TTable(members) =>
      && j.Object?
      && (forall k :: k in members <==> k in j.members && !j.members[k].Null? && !j.members[k].Binary?)
      && (forall k | k in members :: k in j.members && SameMeaning(members[k], j.members[k]))
    case TDateTime(_) => false
  }

  /** Converted to TOML, a value means the same. */
  lemma {:induction false} TomlMeansTheSame(j: Json)
    requires !j.Null? && !j.Binary?
    ensures SameMeaning(NodeToToml(j), j)
    decreases j, 1
  {
    match j
    case Array(items) => ItemsMeanTheSame(items);
    case Object(members) =>
      forall k | k in members && !members[k].Null? && !members[k].Binary?
        ensures SameMeaning(NodeToToml(members[k]), members[k])
      {
        TomlMeansTheSame(members[k]);
      }
    case Bool(_) => case Integer(_) => case Float(_) => case String(_) => case Null => case Binary(_) =>
  }

  lemma {:induction false} ItemsMeanTheSame(items: seq<Json>)
    ensures |ArrayToToml(items)| == |Values(items)|
    ensures forall i | 0 <= i < |Values(items)| :: SameMeaning(ArrayToToml(items)[i], Values(items)[i])
    decreases items, 0
  {
    hide SameMeaning, NodeToToml;
    if items != [] {
      var n := |items| - 1;
      ItemsMeanTheSame(items[..n]);
      if Kept(items[n]) {
        TomlMeansTheSame(items[n]);
      }
    }
  }

  /** Converted to JSON, a value without dates and times means the same. */
  lemma {:induction false} JsonMeansTheSame(t: Toml)
    requires Supported(t)
    ensures SameMeaning(t, NodeToJson(t)) && Kept(NodeToJson(t))
    decreases t, 1
  {
    match t
    case TArray(items) => JsonItemsMeanTheSame(items);
    case TTable(members) =>
      forall k | k in members ensures SameMeaning(members[k], NodeToJson(members[k])) && Kept(NodeToJson(members[k])) {
        JsonMeansTheSame(members[k]);
      }
    case TBool(_) => case TInteger(_) => case TFloat(_) => case TString(_) => case TDateTime(_) =>
  }

  lemma {:induction false} JsonItemsMeanTheSame(items: seq<Toml>)
    requires forall i | 0 <= i < |items| :: Supported(items[i])
    ensures Values(ArrayToJson(items)) == ArrayToJson(items) && |ArrayToJson(items)| == |items|
    ensures forall i | 0 <= i < |items| :: SameMeaning(items[i], ArrayToJson(items)[i])
    decreases items, 0
  {
    hide SameMeaning, NodeToJson, Supported;
    if items != [] {
      var n := |items| - 1;
      JsonItemsMeanTheSame(items[..n]);
      JsonMeansTheSame(items[n]);
      var before := ArrayToJson(items[..n]);
      assert (before + [NodeToJson(items[n])])[..n] == before;
    }
  }
}
