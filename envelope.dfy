/** The outbound envelope `ApiRequest` and its null-omitting serialisation:
    every property is written in declaration order, except those whose
    value is null. Only the emitted keys are modelled, not the values'
    JSON text. */
module Envelope {
  import opened Wrappers
  import opened BizObjectModels

  /** `ApiRequest`: a mandatory action name and thirteen optional fields. */
  datatype ApiRequest = ApiRequest(
    actionName: string,
    schemaCode: Option<string>,
    bizObjectId: Option<string>,
    bizObject: Option<BizObject>,
    bizObjectArray: Option<seq<string>>,
    bizObjectIds: Option<seq<string>>,
    isSubmit: Option<bool>,
    filter: Option<Filter>,
    filterString: Option<string>,
    instanceId: Option<string>,
    approvalAction: Option<string>,
    comment: Option<string>,
    userId: Option<string>,
    customData: Option<Json>)

  /** `new ApiRequest()`: an empty action name and every other field absent. */
  function EmptyRequest(): ApiRequest
  {
    ApiRequest("", None, None, None, None, None, None, None, None, None, None, None, None, None)
  }

  /** The JSON keys of the envelope's properties, in declaration order. */
  datatype Key =
    | ActionName | SchemaCode | BizObjectId | BizObjectKey | BizObjectArray | BizObjectIds
    | IsSubmit | FilterKey | FilterString | InstanceId | ApprovalAction | Comment | UserId
    | CustomData

  /** The wire name of a key: the property's own name. */
  function KeyName(k: Key): string
  {
    match k
    case ActionName => "ActionName"
    case SchemaCode => "SchemaCode"
    case BizObjectId => "BizObjectId"
    case BizObjectKey => "BizObject"
    case BizObjectArray => "BizObjectArray"
    case BizObjectIds => "BizObjectIds"
    case IsSubmit => "IsSubmit"
    case FilterKey => "Filter"
    case FilterString => "FilterString"
    case InstanceId => "InstanceId"
    case ApprovalAction => "ApprovalAction"
    case Comment => "Comment"
    case UserId => "UserId"
    case CustomData => "CustomData"
  }

  /** The position of a key's property in the declaration order. */
  function KeyIndex(k: Key): (i: nat)
    ensures i < 14
  {
    match k
    case ActionName => 0
    case SchemaCode => 1
    case BizObjectId => 2
    case BizObjectKey => 3
    case BizObjectArray => 4
    case BizObjectIds => 5
    case IsSubmit => 6
    case FilterKey => 7
    case FilterString => 8
    case InstanceId => 9
    case ApprovalAction => 10
    case Comment => 11
    case UserId => 12
    case CustomData => 13
  }

  /** Whether the request sets the field behind a key (the action name is
      a non-nullable string, so it is always set). */
  predicate IsSet(r: ApiRequest, k: Key)
  {
    match k
    case ActionName => true
    case SchemaCode => r.schemaCode.Some?
    case BizObjectId => r.bizObjectId.Some?
    case BizObjectKey => r.bizObject.Some?
    case BizObjectArray => r.bizObjectArray.Some?
    case BizObjectIds => r.bizObjectIds.Some?
    case IsSubmit => r.isSubmit.Some?
    case FilterKey => r.filter.Some?
    case FilterString => r.filterString.Some?
    case InstanceId => r.instanceId.Some?
    case ApprovalAction => r.approvalAction.Some?
    case Comment => r.comment.Some?
    case UserId => r.userId.Some?
    case CustomData => r.customData.Some?
  }

  /** A serialised property: its key and whether its value is null. */
  datatype Property = Property(key: Key, isNull: bool)

  /** The key declared at position `i`. */
  function KeyAt(i: nat): (k: Key)
    requires i < 14
    ensures KeyIndex(k) == i
  {
    match i
    case 0 => ActionName
    case 1 => SchemaCode
    case 2 => BizObjectId
    case 3 => BizObjectKey
    case 4 => BizObjectArray
    case 5 => BizObjectIds
    case 6 => IsSubmit
    case 7 => FilterKey
    case 8 => FilterString
    case 9 => InstanceId
    case 10 => ApprovalAction
    case 11 => Comment
    case 12 => UserId
    case _ => CustomData
  }

  /** The properties of an `ApiRequest`, in declaration order, as the
      serialiser reflects over them: each key with whether its value is null. */
  function Properties(r: ApiRequest): (ps: seq<Property>)
    ensures |ps| == 14
    ensures forall i :: 0 <= i < 14 ==> KeyIndex(ps[i].key) == i
    ensures forall i :: 0 <= i < 14 ==> ps[i].isNull == !IsSet(r, ps[i].key)
  {
    seq(14, i requires 0 <= i < 14 => Property(KeyAt(i), !IsSet(r, KeyAt(i))))
  }

  /** Null-value omission: the keys of the non-null properties, in order. */
  function OmitNulls(ps: seq<Property>): (keys: seq<Key>)
    ensures |keys| <= |ps|
  {
    if ps == [] then []
    else if ps[0].isNull then OmitNulls(ps[1..])
    else [ps[0].key] + OmitNulls(ps[1..])
  }

  /** A key is emitted exactly when some property with that key is non-null. */
  lemma {:induction false} OmitNullsMembers(ps: seq<Property>, k: Key)
    ensures k in OmitNulls(ps) <==> exists i :: 0 <= i < |ps| && ps[i].key == k && !ps[i].isNull
  {
    if ps != [] {
      OmitNullsMembers(ps[1..], k);
      if k in OmitNulls(ps) && !(ps[0].key == k && !ps[0].isNull) {
        var i :| 0 <= i < |ps[1..]| && ps[1..][i].key == k && !ps[1..][i].isNull;
        assert ps[i + 1] == ps[1..][i];
      }
      if exists i :: 0 <= i < |ps| && ps[i].key == k && !ps[i].isNull {
        var i :| 0 <= i < |ps| && ps[i].key == k && !ps[i].isNull;
        if i > 0 {
          assert ps[1..][i - 1] == ps[i];
        }
      }
    }
  }

  /** Keys listed in strictly increasing declaration order. */
  predicate InDeclarationOrder(keys: seq<Key>)
  {
    forall i, j :: 0 <= i < j < |keys| ==> KeyIndex(keys[i]) < KeyIndex(keys[j])
  }

  /** Omission keeps the properties' order, so it emits no key twice. */
  lemma {:induction false} OmitNullsKeepsOrder(ps: seq<Property>)
    requires forall i, j :: 0 <= i < j < |ps| ==> KeyIndex(ps[i].key) < KeyIndex(ps[j].key)
    ensures InDeclarationOrder(OmitNulls(ps))
  {
    if ps != [] {
      var rest := OmitNulls(ps[1..]);
      OmitNullsKeepsOrder(ps[1..]);
      if !ps[0].isNull {
        forall i | 0 <= i < |rest| ensures KeyIndex(ps[0].key) < KeyIndex(rest[i]) {
          assert rest[i] in rest;
          OmitNullsMembers(ps[1..], rest[i]);
          var j :| 0 <= j < |ps[1..]| && ps[1..][j].key == rest[i] && !ps[1..][j].isNull;
          assert ps[j + 1] == ps[1..][j];
        }
        var keys := OmitNulls(ps);
        assert keys == [ps[0].key] + rest;
        forall i, j | 0 <= i < j < |keys| ensures KeyIndex(keys[i]) < KeyIndex(keys[j]) {
          assert keys[j] == rest[j - 1];
          if i > 0 {
            assert keys[i] == rest[i - 1];
          }
        }
      }
    }
  }

  /** The keys the serialised envelope carries: exactly those of the set
      fields, in declaration order, each once, the action name first. The
      order is that of the serialiser's reflection over the properties, an
      observed behaviour of the library rather than a promise of the SDK. */
  function Encode(r: ApiRequest): (keys: seq<Key>)
    ensures forall k :: k in keys <==> IsSet(r, k)
    ensures InDeclarationOrder(keys)
    ensures |keys| >= 1 && keys[0] == ActionName
  {
    var ps := Properties(r);
    var keys := OmitNulls(ps);
    forall k ensures k in keys <==> IsSet(r, k) {
      OmitNullsMembers(ps, k);
      KeyIndexInjective(ps[KeyIndex(k)].key, k);
    }
    OmitNullsKeepsOrder(ps);
    assert keys[0] == ActionName;
    keys
  }

  /** The wire names of the emitted keys. */
  function EncodedNames(r: ApiRequest): seq<string>
  {
    seq(|Encode(r)|, i requires 0 <= i < |Encode(r)| => KeyName(Encode(r)[i]))
  }

  /** Two keys never share a wire name. */
  lemma KeyNamesInjective(k: Key, l: Key)
    ensures KeyName(k) == KeyName(l) ==> k == l
  {
  }

  /** A default envelope serialises to its action name alone. */
  lemma EmptyRequestEncodesActionNameOnly()
    ensures Encode(EmptyRequest()) == [ActionName]
  {
    OrderedByMembers(Encode(EmptyRequest()), [ActionName]);
  }

  /** Keys in declaration order are determined by their set: two encodings
      with the same members are the same sequence. */
  lemma {:induction false} OrderedByMembers(a: seq<Key>, b: seq<Key>)
    requires InDeclarationOrder(a) && InDeclarationOrder(b)
    requires forall k :: k in a <==> k in b
    ensures a == b
  {
    if a != [] {
      assert a[0] in a;
    }
    if b != [] {
      assert b[0] in b;
    }
    if a != [] && b != [] {
      var j :| 0 <= j < |b| && b[j] == a[0];
      assert KeyIndex(b[0]) <= KeyIndex(a[0]) by {
        assert j == 0 || KeyIndex(b[0]) < KeyIndex(b[j]);
      }
      var i :| 0 <= i < |a| && a[i] == b[0];
      assert KeyIndex(a[0]) <= KeyIndex(b[0]) by {
        assert i == 0 || KeyIndex(a[0]) < KeyIndex(a[i]);
      }
      KeyIndexInjective(a[0], b[0]);
      forall k ensures k in a[1..] <==> k in b[1..] {
        if k in a[1..] {
          var i :| 0 <= i < |a[1..]| && a[1..][i] == k;
          assert KeyIndex(a[0]) < KeyIndex(a[i + 1]);
        }
        if k in b[1..] {
          var i :| 0 <= i < |b[1..]| && b[1..][i] == k;
          assert KeyIndex(b[0]) < KeyIndex(b[i + 1]);
        }
        if k in a && k != a[0] {
          var i :| 0 <= i < |a| && a[i] == k;
          assert a[1..][i - 1] == k;
        }
        if k in b && k != b[0] {
          var i :| 0 <= i < |b| && b[i] == k;
          assert b[1..][i - 1] == k;
        }
      }
      OrderedByMembers(a[1..], b[1..]);
      assert a == [a[0]] + a[1..];
      assert b == [b[0]] + b[1..];
    }
  }

  /** Declaration positions identify keys. */
  lemma KeyIndexInjective(k: Key, l: Key)
    ensures KeyIndex(k) == KeyIndex(l) ==> k == l
  {
  }
}
