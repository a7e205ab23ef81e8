/** Trimming of a step's detail object before it is stored as an event. */
module DetailTrim {
  import opened Sequences
  import opened Options

  /** A JSON value; an object keeps the order of its keys, and a number is kept as written. */
  datatype Json =
    | JNull
    | JBool(b: bool)
    | JNum(text: string)
    | JStr(s: string)
    | JList(items: seq<Json>)
    | JDict(fields: seq<(string, Json)>)

  const DETAIL_MAX_BYTES: nat := 8 * 1024
  const DETAIL_ARRAY_MAX: nat := 20

  /** Length of the serialised value in bytes, or None when serialising raises. */
  type Size = Json -> Option<nat>

  predicate Scalar(j: Json) { !j.JList? && !j.JDict? }

  predicate Fits(j: Json, size: Size) { size(j).Some? && size(j).value <= DETAIL_MAX_BYTES }

  function ScalarFields(fs: seq<(string, Json)>): seq<(string, Json)> {
    if fs == [] then []
    else (if Scalar(fs[0].1) then [fs[0]] else []) + ScalarFields(fs[1..])
  }

  /** One field for `_scalar_only`: scalars, and objects of scalars. */
  function FlatField(f: (string, Json)): seq<(string, Json)> {
    if Scalar(f.1) then [f]
    else if f.1.JDict? then [(f.0, JDict(ScalarFields(f.1.fields)))]
    else []
  }

  /** `_scalar_only` */
  function ScalarOnly(fs: seq<(string, Json)>): seq<(string, Json)> {
    if fs == [] then [] else FlatField(fs[0]) + ScalarOnly(fs[1..])
  }

  /** `_ARRAY_ITEM_KEEP` */
  function ArrayItemKeep(key: string): Option<seq<string>> {
    if key == "hits" then Some(["name", "type", "kb_id", "score"])
    else if key == "recalls" then Some(["doc_id", "chunk_index", "kb_id"])
    else None
  }

  function Lookup(fs: seq<(string, Json)>, key: string): Option<Json> {
    if fs == [] then None else if fs[0].0 == key then Some(fs[0].1) else Lookup(fs[1..], key)
  }

  function Pick(fs: seq<(string, Json)>, keys: seq<string>): seq<(string, Json)> {
    if keys == [] then []
    else
      var v := Lookup(fs, keys[0]);
      (if v.Some? then [(keys[0], v.value)] else []) + Pick(fs, keys[1..])
  }

  /** `_trim_item` for an object */
  function TrimItem(fs: seq<(string, Json)>, keep: Option<seq<string>>): seq<(string, Json)> {
    match keep
    case None => ScalarOnly(fs)
    case Some(keys) => Pick(fs, keys)
  }

  function TrimElement(j: Json, keep: Option<seq<string>>): seq<Json> {
    if j.JDict? then [JDict(TrimItem(j.fields, keep))] else if Scalar(j) then [j] else []
  }

  function TrimElements(items: seq<Json>, keep: Option<seq<string>>): (r: seq<Json>)
    ensures |r| <= |items|
  {
    if items == [] then [] else TrimElement(items[0], keep) + TrimElements(items[1..], keep)
  }

  function FirstOf(items: seq<Json>): seq<Json> {
    if |items| <= DETAIL_ARRAY_MAX then items else items[..DETAIL_ARRAY_MAX]
  }

  /** One field of the detail: scalars and flat objects stay, a list is cut and its items trimmed. */
  function TrimField(f: (string, Json)): seq<(string, Json)> {
    if f.1.JList? then
      var items := TrimElements(FirstOf(f.1.items), ArrayItemKeep(f.0));
      if items == [] then [] else [(f.0, JList(items))]
    else FlatField(f)
  }

  function TrimFields(fs: seq<(string, Json)>): seq<(string, Json)> {
    if fs == [] then [] else TrimField(fs[0]) + TrimFields(fs[1..])
  }

  function Keys(fs: seq<(string, Json)>): seq<string> {
    seq(|fs|, i requires 0 <= i < |fs| => fs[i].0)
  }

  function KeyList(keys: seq<string>): Json {
    JList(seq(|keys|, i requires 0 <= i < |keys| => JStr(keys[i])))
  }

  /** What is left of an object that does not fit: its key names. */
  function Manifest(keys: seq<string>): Json {
    JDict([("truncated", JBool(true)), ("keys", KeyList(keys))])
  }

  function OrNone(fs: seq<(string, Json)>): Option<Json> {
    if fs == [] then None else Some(JDict(fs))
  }

  /** `_trim_detail` */
  function Trim(detail: Json, size: Size): Option<Json> {
    if !detail.JDict? || detail.fields == [] then None
    else
      var trimmed := TrimFields(detail.fields);
      var fallback := ScalarOnly(trimmed);
      if size(JDict(trimmed)).None? then Some(Manifest(Keys(trimmed)))
      else if Fits(JDict(trimmed), size) then OrNone(trimmed)
      else if Fits(JDict(fallback), size) then OrNone(fallback)
      else Some(Manifest(Keys(trimmed)))
  }

  // ---------- the function itself ----------

  method TrimList(key: string, list: seq<Json>) returns (items: seq<Json>)
    ensures items == TrimElements(FirstOf(list), ArrayItemKeep(key))
  {
    var keep := ArrayItemKeep(key);
    var head := FirstOf(list);
    items := [];
    var i := 0;
    while i < |head|
      invariant 0 <= i <= |head|
      invariant items + TrimElements(head[i..], keep) == TrimElements(head, keep)
    {
      var item := head[i];
      assert head[i..][0] == item && head[i..][1..] == head[i + 1..];
      Associate(items, TrimElement(item, keep), TrimElements(head[i + 1..], keep));
      if item.JDict? {
        items := items + [JDict(TrimItem(item.fields, keep))];
      } else if Scalar(item) {
        items := items + [item];
      } else {
        assert items + [] == items;
      }
      i := i + 1;
    }
    assert items + [] == items;
  }

  /** `_trim_detail` */
  method TrimDetail(detail: Json, size: Size) returns (r: Option<Json>)
    ensures r == Trim(detail, size)
  {
    if !detail.JDict? || detail.fields == [] {
      return None;
    }
    var fs, trimmed := detail.fields, [];
    var i := 0;
    while i < |fs|
      invariant 0 <= i <= |fs|
      invariant trimmed + TrimFields(fs[i..]) == TrimFields(fs)
    {
      var f := fs[i];
      assert fs[i..][0] == f && fs[i..][1..] == fs[i + 1..];
      Associate(trimmed, TrimField(f), TrimFields(fs[i + 1..]));
      if f.1.JList? {
        var items := TrimList(f.0, f.1.items);
        if items != [] {
          trimmed := trimmed + [(f.0, JList(items))];
        } else {
          assert trimmed + [] == trimmed;
        }
      } else {
        trimmed := trimmed + FlatField(f);
      }
      i := i + 1;
    }
    assert trimmed + [] == trimmed;
    var bytes := size(JDict(trimmed));
    if bytes.None? {
      return Some(Manifest(Keys(trimmed)));
    }
    if bytes.value <= DETAIL_MAX_BYTES {
      return OrNone(trimmed);
    }
    var fallback := ScalarOnly(trimmed);
    bytes := size(JDict(fallback));
    if bytes.Some? && bytes.value <= DETAIL_MAX_BYTES {
      return OrNone(fallback);
    }
    return Some(Manifest(Keys(trimmed)));
  }

  // ---------- what trimming guarantees ----------

  lemma {:induction false} ScalarsKept(fs: seq<(string, Json)>, f: (string, Json))
    requires Scalar(f.1)
    ensures f in fs <==> f in TrimFields(fs)
    ensures f in fs <==> f in ScalarOnly(fs)
  {
    if fs != [] {
      assert fs == [fs[0]] + fs[1..];
      ScalarsKept(fs[1..], f);
    }
  }

  predicate AllScalar(fs: seq<(string, Json)>) { forall i :: 0 <= i < |fs| ==> Scalar(fs[i].1) }

  predicate AllFlat(fs: seq<(string, Json)>) {
    forall i :: 0 <= i < |fs| ==> Scalar(fs[i].1) || (fs[i].1.JDict? && AllScalar(fs[i].1.fields))
  }

  predicate KeysAmong(fs: seq<(string, Json)>, keys: seq<string>) { forall i :: 0 <= i < |fs| ==> fs[i].0 in keys }

  /** An item of a trimmed list: a scalar, or an object that is flat but for flat objects in it, or, in a list with
      kept keys, an object with no other keys. */
  predicate TrimmedItem(j: Json, keep: Option<seq<string>>) {
    Scalar(j) || (j.JDict? && match keep case None => AllFlat(j.fields) case Some(keys) => KeysAmong(j.fields, keys))
  }

  predicate TrimmedField(f: (string, Json)) {
    match f.1
    case JList(items) =>
      1 <= |items| <= DETAIL_ARRAY_MAX && forall i :: 0 <= i < |items| ==> TrimmedItem(items[i], ArrayItemKeep(f.0))
    case JDict(fs) => AllScalar(fs)
    case _ => true
  }

  lemma {:induction false} ScalarFieldsAreScalar(fs: seq<(string, Json)>)
    ensures AllScalar(ScalarFields(fs))
  {
    if fs != [] {
      ScalarFieldsAreScalar(fs[1..]);
    }
  }

  lemma {:induction false} ScalarOnlyIsFlat(fs: seq<(string, Json)>)
    ensures AllFlat(ScalarOnly(fs))
  {
    if fs != [] {
      ScalarOnlyIsFlat(fs[1..]);
      if fs[0].1.JDict? { ScalarFieldsAreScalar(fs[0].1.fields); }
    }
  }

  lemma {:induction false} PickedKeys(fs: seq<(string, Json)>, keys: seq<string>)
    ensures KeysAmong(Pick(fs, keys), keys)
  {
    if keys != [] {
      PickedKeys(fs, keys[1..]);
    }
  }

  lemma {:induction false} ElementsAreTrimmed(items: seq<Json>, keep: Option<seq<string>>)
    ensures forall i :: 0 <= i < |TrimElements(items, keep)| ==> TrimmedItem(TrimElements(items, keep)[i], keep)
  {
    if items != [] {
      ElementsAreTrimmed(items[1..], keep);
      if items[0].JDict? {
        match keep {
          case None => ScalarOnlyIsFlat(items[0].fields);
          case Some(keys) => PickedKeys(items[0].fields, keys);
        }
      }
    }
  }

  lemma {:induction false} TrimmedShape(fs: seq<(string, Json)>)
    ensures forall i :: 0 <= i < |TrimFields(fs)| ==> TrimmedField(TrimFields(fs)[i])
    ensures forall i :: 0 <= i < |ScalarOnly(fs)| ==> TrimmedField(ScalarOnly(fs)[i]) && !ScalarOnly(fs)[i].1.JList?
  {
    if fs != [] {
      TrimmedShape(fs[1..]);
      match fs[0].1 {
        case JList(items) => ElementsAreTrimmed(FirstOf(items), ArrayItemKeep(fs[0].0));
        case JDict(gs) => ScalarFieldsAreScalar(gs);
        case _ =>
      }
    }
  }

  /** A trimmed detail is nothing, an object within the byte limit whose top-level lists hold at most twenty
      trimmed items and whose objects are flat, or the list of key names; and only the last loses a
      top-level scalar. */
  lemma TrimOutcome(detail: Json, size: Size)
    ensures match Trim(detail, size)
            case None => detail.JDict? ==> forall f: (string, Json) :: f in detail.fields ==> !Scalar(f.1)
            case Some(r) =>
              detail.JDict? && r.JDict?
              && (r == Manifest(Keys(TrimFields(detail.fields)))
                  || (Fits(r, size)
                      && (forall i :: 0 <= i < |r.fields| ==> TrimmedField(r.fields[i]))
                      && (forall f: (string, Json) :: Scalar(f.1) ==> (f in detail.fields <==> f in r.fields))))
  {
    if detail.JDict? {
      var t := TrimFields(detail.fields);
      TrimmedShape(detail.fields);
      TrimmedShape(t);
      forall f: (string, Json) | Scalar(f.1)
        ensures (f in detail.fields <==> f in t) && (f in t <==> f in ScalarOnly(t))
      {
        ScalarsKept(detail.fields, f);
        ScalarsKept(t, f);
      }
    }
  }

  // ---------- inside the lists ----------

  /** The items that are no lists, in order. */
  function NoLists(items: seq<Json>): seq<Json> {
    if items == [] then [] else (if items[0].JList? then [] else [items[0]]) + NoLists(items[1..])
  }

  /** What an item becomes: a scalar stays; of an object the scalars and the scalars of its objects stay, or, with
      kept keys, the values of those keys, untouched, and nothing else. */
  ghost predicate TrimmedFrom(item: Json, j: Json, keep: Option<seq<string>>) {
    if !item.JDict? then j == item
    else
      j.JDict? &&
      match keep
      case None =>
        && AllFlat(j.fields)
        && forall f: (string, Json) :: Scalar(f.1) ==> (f in item.fields <==> f in j.fields)
      case Some(keys) => forall key :: Lookup(j.fields, key) == if key in keys then Lookup(item.fields, key) else None
  }

  lemma {:induction false} PickLookup(fs: seq<(string, Json)>, keys: seq<string>, key: string)
    ensures Lookup(Pick(fs, keys), key) == if key in keys then Lookup(fs, key) else None
  {
    if keys != [] {
      PickLookup(fs, keys[1..], key);
      assert keys == [keys[0]] + keys[1..];
      if Lookup(fs, keys[0]).Some? {
        assert Pick(fs, keys)[1..] == Pick(fs, keys[1..]);
      } else {
        assert Pick(fs, keys) == Pick(fs, keys[1..]);
      }
    }
  }

  lemma ItemTrimmedFrom(item: Json, keep: Option<seq<string>>)
    requires !item.JList?
    ensures |TrimElement(item, keep)| == 1 && TrimmedFrom(item, TrimElement(item, keep)[0], keep)
  {
    if item.JDict? {
      match keep {
        case None =>
          ScalarOnlyIsFlat(item.fields);
          forall f: (string, Json) | Scalar(f.1) ensures f in item.fields <==> f in ScalarOnly(item.fields) {
            ScalarsKept(item.fields, f);
          }
        case Some(keys) =>
          forall key ensures Lookup(Pick(item.fields, keys), key) == if key in keys then Lookup(item.fields, key) else None {
            PickLookup(item.fields, keys, key);
          }
      }
    }
  }

  /** The items of a trimmed list are those of the list but for lists, one for one, each trimmed. */
  lemma {:induction false} ElementsAre(items: seq<Json>, keep: Option<seq<string>>)
    ensures |TrimElements(items, keep)| == |NoLists(items)|
    ensures forall i :: 0 <= i < |NoLists(items)| ==> TrimmedFrom(NoLists(items)[i], TrimElements(items, keep)[i], keep)
  {
    if items != [] {
      ElementsAre(items[1..], keep);
      if items[0].JList? {
        assert TrimElements(items, keep) == TrimElements(items[1..], keep) && NoLists(items) == NoLists(items[1..]);
      } else {
        ItemTrimmedFrom(items[0], keep);
        ElementsFollow(items, keep);
      }
    }
  }

  lemma ElementsFollow(items: seq<Json>, keep: Option<seq<string>>)
    requires items != [] && !items[0].JList? && |TrimElement(items[0], keep)| == 1
    ensures NoLists(items) == [items[0]] + NoLists(items[1..])
    ensures TrimElements(items, keep) == [TrimElement(items[0], keep)[0]] + TrimElements(items[1..], keep)
  {
  }

  /** A list field of the detail: it goes when its first twenty items are all lists, and holds its trimmed items
      otherwise. */
  lemma {:induction false} ListFieldIs(fs: seq<(string, Json)>, f: (string, Json))
    requires f in fs && f.1.JList? && NoLists(FirstOf(f.1.items)) != []
    ensures (f.0, JList(TrimElements(FirstOf(f.1.items), ArrayItemKeep(f.0)))) in TrimFields(fs)
  {
    ElementsAre(FirstOf(f.1.items), ArrayItemKeep(f.0));
    if fs[0] != f {
      assert fs == [fs[0]] + fs[1..];
      ListFieldIs(fs[1..], f);
    }
  }

  /** The fields that the first stage keeps: all but lists that begin with nothing but lists. */
  function KeptFields(fs: seq<(string, Json)>): seq<(string, Json)> {
    if fs == [] then []
    else (if fs[0].1.JList? && NoLists(FirstOf(fs[0].1.items)) == [] then [] else [fs[0]]) + KeptFields(fs[1..])
  }

  /** What a field becomes: a scalar stays, of an object its scalars stay, and a list is cut and its items trimmed. */
  ghost predicate FieldTrimmedFrom(f: (string, Json), g: (string, Json)) {
    g.0 == f.0 &&
    match f.1
    case JDict(fs) =>
      g.1.JDict? && AllScalar(g.1.fields)
      && forall x: (string, Json) :: Scalar(x.1) ==> (x in fs <==> x in g.1.fields)
    case JList(items) =>
      && g.1.JList? && |g.1.items| == |NoLists(FirstOf(items))|
      && forall i :: 0 <= i < |g.1.items| ==> TrimmedFrom(NoLists(FirstOf(items))[i], g.1.items[i], ArrayItemKeep(f.0))
    case _ => g.1 == f.1
  }

  ghost predicate Aligned(fs: seq<(string, Json)>, gs: seq<(string, Json)>) {
    |gs| == |fs| && forall i :: 0 <= i < |gs| ==> FieldTrimmedFrom(fs[i], gs[i])
  }

  lemma AlignedConcat(fs: seq<(string, Json)>, gs: seq<(string, Json)>, fs': seq<(string, Json)>, gs': seq<(string, Json)>)
    requires Aligned(fs, gs) && Aligned(fs', gs')
    ensures Aligned(fs + fs', gs + gs')
  {
  }

  /** The first stage, field by field and in order. */
  ghost predicate StageOne(fs: seq<(string, Json)>, gs: seq<(string, Json)>) { Aligned(KeptFields(fs), gs) }

  lemma FieldIs(f: (string, Json))
    ensures if f.1.JList? && NoLists(FirstOf(f.1.items)) == [] then TrimField(f) == []
            else |TrimField(f)| == 1 && FieldTrimmedFrom(f, TrimField(f)[0])
  {
    match f.1
    case JList(items) => ElementsAre(FirstOf(items), ArrayItemKeep(f.0));
    case JDict(fs) =>
      ScalarFieldsAreScalar(fs);
      forall x: (string, Json) | Scalar(x.1) ensures x in fs <==> x in ScalarFields(fs) { ScalarFieldsKept(fs, x); }
    case _ =>
  }

  lemma {:induction false} ScalarFieldsKept(fs: seq<(string, Json)>, x: (string, Json))
    requires Scalar(x.1)
    ensures x in fs <==> x in ScalarFields(fs)
  {
    if fs != [] {
      ScalarFieldsKept(fs[1..], x);
      assert fs == [fs[0]] + fs[1..];
    }
  }

  lemma {:induction false} FieldsAre(fs: seq<(string, Json)>)
    ensures StageOne(fs, TrimFields(fs))
  {
    if fs != [] {
      FieldsAre(fs[1..]);
      FieldIs(fs[0]);
      var own := if fs[0].1.JList? && NoLists(FirstOf(fs[0].1.items)) == [] then [] else [fs[0]];
      AlignedConcat(own, TrimField(fs[0]), KeptFields(fs[1..]), TrimFields(fs[1..]));
    }
  }

  /** The second stage: the fields that are no lists, in order, of objects the scalars. */
  function NotLists(fs: seq<(string, Json)>): seq<(string, Json)> {
    if fs == [] then [] else (if fs[0].1.JList? then [] else [fs[0]]) + NotLists(fs[1..])
  }

  ghost predicate StageTwo(fs: seq<(string, Json)>, gs: seq<(string, Json)>) {
    Aligned(NotLists(fs), gs)
  }

  lemma {:induction false} FlatFieldsAre(fs: seq<(string, Json)>)
    ensures StageTwo(fs, ScalarOnly(fs))
  {
    if fs != [] {
      FlatFieldsAre(fs[1..]);
      FieldIs(fs[0]);
      AlignedConcat(if fs[0].1.JList? then [] else [fs[0]], FlatField(fs[0]), NotLists(fs[1..]), ScalarOnly(fs[1..]));
    }
  }

  predicate WithinLimit(fs: seq<(string, Json)>, size: Size) {
    size(JDict(fs)).Some? && size(JDict(fs)).value <= 8192
  }

  predicate KeyNames(r: Json, fs: seq<(string, Json)>) {
    r.JDict? && |r.fields| == 2 && r.fields[0] == ("truncated", JBool(true)) && r.fields[1].0 == "keys"
    && r.fields[1].1.JList? && |r.fields[1].1.items| == |fs|
    && forall i :: 0 <= i < |fs| ==> r.fields[1].1.items[i] == JStr(fs[i].0)
  }

  /** Which of the three a detail becomes: the first stage if it is within the limit, the second if that is, and the
      names of the first stage's keys otherwise; an empty object becomes nothing. */
  lemma TrimIs(fs: seq<(string, Json)>, size: Size) returns (one: seq<(string, Json)>, two: seq<(string, Json)>)
    requires fs != []
    ensures StageOne(fs, one) && StageTwo(one, two)
    ensures var r := Trim(JDict(fs), size);
            if WithinLimit(one, size) then r == if one == [] then None else Some(JDict(one))
            else if size(JDict(one)).Some? && WithinLimit(two, size) then r == if two == [] then None else Some(JDict(two))
            else r.Some? && KeyNames(r.value, one)
  {
    one := TrimFields(fs);
    two := ScalarOnly(one);
    FieldsAre(fs);
    FlatFieldsAre(one);
  }

  /** The value is a list or has one somewhere inside. */
  predicate HasList(j: Json) {
    match j
    case JList(_) => true
    case JDict(fs) => exists i :: 0 <= i < |fs| && HasList(fs[i].1)
    case _ => false
  }

  /** The item keeps a list below the value of a kept key. */
  predicate KeepsList(item: Json, keep: Option<seq<string>>) {
    item.JDict? && keep.Some?
    && exists i :: 0 <= i < |keep.value|
                   && Lookup(item.fields, keep.value[i]).Some? && HasList(Lookup(item.fields, keep.value[i]).value)
  }

  lemma FlatHasNoList(fs: seq<(string, Json)>)
    requires AllFlat(fs)
    ensures !HasList(JDict(fs))
  {
    forall i | 0 <= i < |fs| ensures !HasList(fs[i].1) {
      if fs[i].1.JDict? {
        var gs := fs[i].1.fields;
        forall k | 0 <= k < |gs| ensures !HasList(gs[k].1) {
          assert Scalar(gs[k].1);
        }
      }
    }
  }

  lemma {:induction false} PickHasListIff(fs: seq<(string, Json)>, keys: seq<string>)
    ensures HasList(JDict(Pick(fs, keys))) <==>
            exists i :: 0 <= i < |keys| && Lookup(fs, keys[i]).Some? && HasList(Lookup(fs, keys[i]).value)
  {
    if keys != [] {
      var rest, v := Pick(fs, keys[1..]), Lookup(fs, keys[0]);
      PickHasListIff(fs, keys[1..]);
      if v.Some? {
        ConsHasList((keys[0], v.value), rest);
      } else {
        assert Pick(fs, keys) == rest;
      }
      assert (exists i :: 0 <= i < |keys[1..]| && Lookup(fs, keys[1..][i]).Some? && HasList(Lookup(fs, keys[1..][i]).value))
        ==> exists i :: 1 <= i < |keys| && Lookup(fs, keys[i]).Some? && HasList(Lookup(fs, keys[i]).value) by {
        if i :| 0 <= i < |keys[1..]| && Lookup(fs, keys[1..][i]).Some? && HasList(Lookup(fs, keys[1..][i]).value) {
          assert keys[i + 1] == keys[1..][i];
        }
      }
    }
  }

  lemma ConsHasList(f: (string, Json), fs: seq<(string, Json)>)
    ensures HasList(JDict([f] + fs)) <==> HasList(f.1) || HasList(JDict(fs))
  {
    var gs := [f] + fs;
    if i :| 0 <= i < |fs| && HasList(fs[i].1) {
      assert gs[i + 1] == fs[i];
    }
    assert gs[0] == f;
  }

  /** Below a top-level list a list remains exactly as (a part of) the value of a kept key of one of its items; the
      number of items in it is not limited. */
  lemma {:induction false} ListsBelowIff(items: seq<Json>, keep: Option<seq<string>>)
    ensures (exists j :: j in TrimElements(items, keep) && HasList(j)) <==>
            exists item :: item in items && KeepsList(item, keep)
  {
    if items != [] {
      ListsBelowIff(items[1..], keep);
      ListBelowItem(items[0], keep);
      assert forall item :: item in items <==> item == items[0] || item in items[1..];
      assert forall j :: j in TrimElements(items, keep) <==>
                           j in TrimElement(items[0], keep) || j in TrimElements(items[1..], keep);
    }
  }

  lemma ListBelowItem(item: Json, keep: Option<seq<string>>)
    ensures (exists j :: j in TrimElement(item, keep) && HasList(j)) <==> KeepsList(item, keep)
  {
    if item.JDict? {
      var j := JDict(TrimItem(item.fields, keep));
      assert TrimElement(item, keep) == [j] && j in [j];
      match keep {
        case None => ScalarOnlyIsFlat(item.fields); FlatHasNoList(ScalarOnly(item.fields));
        case Some(keys) => PickHasListIff(item.fields, keys);
      }
    }
  }

  /** A list of any length in the value of a kept key stays as it is, when the detail fits. */
  lemma LongListStays(xs: Json, size: Size)
    requires xs.JList? && Fits(JDict([("hits", JList([JDict([("score", xs)])]))]), size)
    ensures var detail := JDict([("hits", JList([JDict([("score", xs)])]))]); Trim(detail, size) == Some(detail)
  {
    var fs := [("score", xs)];
    var item := JDict(fs);
    PickScore(fs, xs);
    assert TrimElements([item], ArrayItemKeep("hits")) == [item] by { assert [item][1..] == []; }
    var f := ("hits", JList([item]));
    assert TrimFields([f]) == [f] by { assert [f][1..] == []; }
  }

  lemma PickScore(fs: seq<(string, Json)>, xs: Json)
    requires fs == [("score", xs)]
    ensures Pick(fs, ["name", "type", "kb_id", "score"]) == fs
  {
    var a, b, c, d := ["name", "type", "kb_id", "score"], ["type", "kb_id", "score"], ["kb_id", "score"], ["score"];
    assert a[1..] == b && b[1..] == c && c[1..] == d && d[1..] == [];
    assert fs[1..] == [] && Lookup(fs, "score") == Some(xs);
    LookupOther(fs, "name", 'n');
    LookupOther(fs, "type", 't');
    LookupOther(fs, "kb_id", 'k');
    assert Pick(fs, []) == [] && Pick(fs, d) == [("score", xs)] + [];
    assert Pick(fs, c) == [] + Pick(fs, d) && Pick(fs, b) == [] + Pick(fs, c) && Pick(fs, a) == [] + Pick(fs, b);
  }

  lemma LookupOther(fs: seq<(string, Json)>, key: string, c: char)
    requires |fs| == 1 && fs[0].0 == "score" && key != "" && key[0] == c && c != 's'
    ensures Lookup(fs, key).None?
  {
    assert fs[0].0[0] == 's';
    assert fs[1..] == [];
  }

  // ---------- trimming twice ----------

  lemma {:induction false} ScalarFieldsTwice(fs: seq<(string, Json)>)
    ensures ScalarFields(ScalarFields(fs)) == ScalarFields(fs)
  {
    if fs != [] {
      ScalarFieldsTwice(fs[1..]);
      if Scalar(fs[0].1) {
        assert ([fs[0]] + ScalarFields(fs[1..]))[1..] == ScalarFields(fs[1..]);
      } else {
        assert [] + ScalarFields(fs[1..]) == ScalarFields(fs[1..]);
      }
    }
  }

  lemma ScalarOnlyCons(f: (string, Json), fs: seq<(string, Json)>)
    ensures ScalarOnly([f] + fs) == FlatField(f) + ScalarOnly(fs)
    ensures TrimFields([f] + fs) == TrimField(f) + TrimFields(fs)
  {
    assert ([f] + fs)[1..] == fs;
  }

  lemma {:induction false} ScalarOnlyTwice(fs: seq<(string, Json)>)
    ensures ScalarOnly(ScalarOnly(fs)) == ScalarOnly(fs)
    ensures TrimFields(ScalarOnly(fs)) == ScalarOnly(fs)
  {
    if fs != [] {
      ScalarOnlyTwice(fs[1..]);
      if FlatField(fs[0]) != [] {
        if fs[0].1.JDict? { ScalarFieldsTwice(fs[0].1.fields); }
        ScalarOnlyCons(FlatField(fs[0])[0], ScalarOnly(fs[1..]));
      } else {
        assert [] + ScalarOnly(fs[1..]) == ScalarOnly(fs[1..]);
      }
    }
  }

  lemma {:induction false} LookupPicked(fs: seq<(string, Json)>, keys: seq<string>, key: string)
    ensures Lookup(Pick(fs, keys), key) == if key in keys then Lookup(fs, key) else None
  {
    if keys != [] {
      LookupPicked(fs, keys[1..], key);
      var v := Lookup(fs, keys[0]);
      if v.Some? {
        assert ([(keys[0], v.value)] + Pick(fs, keys[1..]))[1..] == Pick(fs, keys[1..]);
      } else {
        assert [] + Pick(fs, keys[1..]) == Pick(fs, keys[1..]);
      }
    }
  }

  lemma {:induction false} PickSame(fs: seq<(string, Json)>, gs: seq<(string, Json)>, keys: seq<string>)
    requires forall key :: key in keys ==> Lookup(fs, key) == Lookup(gs, key)
    ensures Pick(fs, keys) == Pick(gs, keys)
  {
    if keys != [] {
      PickSame(fs, gs, keys[1..]);
    }
  }

  lemma TrimItemTwice(fs: seq<(string, Json)>, keep: Option<seq<string>>)
    ensures TrimItem(TrimItem(fs, keep), keep) == TrimItem(fs, keep)
  {
    match keep
    case None => ScalarOnlyTwice(fs);
    case Some(keys) =>
      forall key | key in keys ensures Lookup(Pick(fs, keys), key) == Lookup(fs, key) { LookupPicked(fs, keys, key); }
      PickSame(Pick(fs, keys), fs, keys);
  }

  lemma {:induction false} TrimElementsTwice(items: seq<Json>, keep: Option<seq<string>>)
    ensures TrimElements(TrimElements(items, keep), keep) == TrimElements(items, keep)
  {
    if items != [] {
      TrimElementsTwice(items[1..], keep);
      var head := TrimElement(items[0], keep);
      if head != [] {
        assert (head + TrimElements(items[1..], keep))[1..] == TrimElements(items[1..], keep);
        if items[0].JDict? { TrimItemTwice(items[0].fields, keep); }
      } else {
        assert head + TrimElements(items[1..], keep) == TrimElements(items[1..], keep);
      }
    }
  }

  lemma {:induction false} TrimFieldTwice(f: (string, Json))
    ensures TrimField(f) != [] ==> TrimField(TrimField(f)[0]) == TrimField(f)
  {
    match f.1
    case JList(items) =>
      var trimmed := TrimElements(FirstOf(items), ArrayItemKeep(f.0));
      TrimElementsTwice(FirstOf(items), ArrayItemKeep(f.0));
      assert FirstOf(trimmed) == trimmed;
    case JDict(gs) => ScalarFieldsTwice(gs);
    case _ =>
  }

  lemma {:induction false} TrimFieldsTwice(fs: seq<(string, Json)>)
    ensures TrimFields(TrimFields(fs)) == TrimFields(fs)
  {
    if fs != [] {
      TrimFieldsTwice(fs[1..]);
      TrimFieldTwice(fs[0]);
      if TrimField(fs[0]) != [] {
        ScalarOnlyCons(TrimField(fs[0])[0], TrimFields(fs[1..]));
      } else {
        assert [] + TrimFields(fs[1..]) == TrimFields(fs[1..]);
      }
    }
  }

  lemma TrimFits(detail: Json, size: Size)
    requires Trim(detail, size).Some? && Trim(detail, size).value != Manifest(Keys(TrimFields(detail.fields)))
    ensures var r, trimmed := Trim(detail, size).value, TrimFields(detail.fields);
            r.JDict? && r.fields != [] && Fits(r, size) && (r.fields == trimmed || r.fields == ScalarOnly(trimmed))
  {
  }

  lemma TrimStays(fs: seq<(string, Json)>, size: Size)
    requires fs != [] && TrimFields(fs) == fs && Fits(JDict(fs), size)
    ensures Trim(JDict(fs), size) == Some(JDict(fs))
  {
  }

  /** Trimming a result again returns it unchanged, unless it is the list of key names. */
  lemma TrimTwice(detail: Json, size: Size)
    requires Trim(detail, size).Some? && Trim(detail, size).value != Manifest(Keys(TrimFields(detail.fields)))
    ensures Trim(Trim(detail, size).value, size) == Trim(detail, size)
  {
    var trimmed := TrimFields(detail.fields);
    var fs := Trim(detail, size).value.fields;
    TrimFieldsTwice(detail.fields);
    ScalarOnlyTwice(trimmed);
    TrimFits(detail, size);
    TrimStays(fs, size);
  }

  lemma {:induction false} StringsKept(items: seq<Json>, keep: Option<seq<string>>)
    requires forall i :: 0 <= i < |items| ==> Scalar(items[i])
    ensures TrimElements(items, keep) == items
  {
    if items != [] {
      StringsKept(items[1..], keep);
      assert items == [items[0]] + items[1..];
    }
  }

  /** The first stage leaves the mark and cuts the list of key names, if there are any. */
  lemma ManifestTrims(keys: seq<string>)
    ensures var first, names := ("truncated", JBool(true)), KeyList(keys).items;
            TrimFields(Manifest(keys).fields) ==
            [first] + (if keys == [] then [] else [("keys", JList(FirstOf(names)))])
  {
    var first, list := ("truncated", JBool(true)), ("keys", KeyList(keys));
    StringsKept(FirstOf(KeyList(keys).items), ArrayItemKeep("keys"));
    assert Manifest(keys).fields == [first] + ([list] + []);
    ScalarOnlyCons(first, [list] + []);
    ScalarOnlyCons(list, []);
    assert TrimField(list) + [] == TrimField(list);
  }

  /** The second stage leaves the mark alone. */
  lemma ManifestFlat(first: (string, Json), items: seq<Json>)
    requires Scalar(first.1)
    ensures ScalarOnly([first] + [("keys", JList(items))]) == [first] && ScalarOnly([first] + []) == [first]
  {
    var list := ("keys", JList(items));
    ScalarOnlyCons(first, [list]);
    ScalarOnlyCons(first, []);
    ScalarOnlyCons(list, []);
    assert [list] + [] == [list];
  }

  /** The list of key names is stable exactly when it holds between one and twenty keys and fits. */
  lemma ManifestTwiceIff(keys: seq<string>, size: Size)
    requires Fits(JDict([("truncated", JBool(true))]), size)
    requires size(Manifest(keys)).Some?
    ensures Trim(Manifest(keys), size) == Some(Manifest(keys))
      <==> 1 <= |keys| <= DETAIL_ARRAY_MAX && Fits(Manifest(keys), size)
  {
    var first, names := ("truncated", JBool(true)), KeyList(keys).items;
    var list := ("keys", JList(FirstOf(names)));
    ManifestTrims(keys);
    ManifestFlat(first, FirstOf(names));
    if keys == [] {
      assert [first] + [] == [first];
    } else {
      assert Manifest(keys).fields == [first] + [("keys", KeyList(keys))];
      if |keys| > DETAIL_ARRAY_MAX {
        assert |list.1.items| == DETAIL_ARRAY_MAX;
      }
    }
  }
}
