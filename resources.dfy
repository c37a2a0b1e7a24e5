/**
 The per-model configuration and the pure class-level helpers of
 restframeworkclient/models.py: the primary-key name, the collection and
 item URLs, and the mapping from HTTP status codes to error kinds.
 */
module Resources {
  import opened Base
  import opened Strings
  import opened Utils

  /** How a declared attribute of a model class behaves (fields.py). */
  datatype FieldKind =
    | Plain
    | DateTimeField
    | DateField
    | TimeField
    | FileField
    | ContentTypeField
    | Reference(target: string, relatedName: Option<string>, oneToOne: bool)
    | ReverseReference(target: string, fieldName: string, filters: Record, oneToOne: bool)

  /**
   A model class as the client sees it: its name, its `Meta` options
   (`resource`, the resolved base URL, `primary_key`, `get_latest_by`)
   and its declared field descriptors, keyed by attribute name.
   */
  datatype ModelMeta = ModelMeta(
    name: string,
    resource: string,
    baseUrl: string,
    primaryKey: Option<string>,
    getLatestBy: Option<string>,
    fields: map<string, FieldKind>)

  /** `_primary_key`: `Meta.primary_key`, or `'id'` when it is missing or empty. */
  function PrimaryKey(m: ModelMeta): (pk: string)
    ensures pk != ""
    ensures m.primaryKey.Some? && m.primaryKey.value != "" ==> pk == m.primaryKey.value
    ensures m.primaryKey.None? || m.primaryKey.value == "" ==> pk == "id"
  {
    if m.primaryKey.Some? && m.primaryKey.value != "" then m.primaryKey.value else "id"
  }

  /** A digit character. */
  function Digit(d: nat): char
    requires d < 10
  {
    ['0','1','2','3','4','5','6','7','8','9'][d]
  }

  /** The decimal text of a natural number. */
  function NatText(n: nat): (t: string)
    ensures |t| >= 1
    ensures n >= 10 ==> |t| >= 2
    decreases n
  {
    if n < 10 then [Digit(n)] else NatText(n / 10) + [Digit(n % 10)]
  }

  /** Decimal text never confuses two numbers. */
  lemma {:induction false} NatTextInjective(a: nat, b: nat)
    requires NatText(a) == NatText(b)
    ensures a == b
    decreases a
  {
    var ta, tb := NatText(a), NatText(b);
    if a >= 10 && b >= 10 {
      assert ta[..|ta| - 1] == NatText(a / 10);
      assert tb[..|tb| - 1] == NatText(b / 10);
      NatTextInjective(a / 10, b / 10);
      assert ta[|ta| - 1] == Digit(a % 10);
      assert tb[|tb| - 1] == Digit(b % 10);
    }
  }

  /** `'%s' % pk` for the primary-key values the model renders exactly. */
  function PkText(v: Value): string {
    match v
    case VInt(i) => if i < 0 then "-" + NatText(-i) else NatText(i)
    case VStr(s) => s
    case VBool(b) => if b then "True" else "False"
    case VNone => "None"
    case _ => "<value>"
  }

  /** Distinct integer primary keys render to distinct text. */
  lemma IntPkTextInjective(a: int, b: int)
    requires PkText(VInt(a)) == PkText(VInt(b))
    ensures a == b
  {
    SignedText(a);
    SignedText(b);
    if a < 0 {
      NatTextInjective(-a, -b);
    } else {
      NatTextInjective(a, b);
    }
  }

  /** The text of a negative number is a sign followed by the digits of its magnitude; other numbers have no sign. */
  lemma SignedText(i: int)
    ensures i < 0 ==> PkText(VInt(i))[0] == '-' && PkText(VInt(i))[1..] == NatText(-i)
    ensures i >= 0 ==> PkText(VInt(i)) == NatText(i) && PkText(VInt(i))[0] != '-'
  {
    if i >= 0 {
      NatTextDigits(i);
    }
  }

  /** Decimal text starts with a digit, never with a sign. */
  lemma {:induction false} NatTextDigits(n: nat)
    ensures NatText(n)[0] != '-'
    decreases n
  {
    if n >= 10 {
      NatTextDigits(n / 10);
    }
  }

  /** `_resources_url`: `base/resource/` */
  function ResourcesUrl(m: ModelMeta): Url {
    Url(m.baseUrl + "/" + m.resource + "/", map[])
  }

  /** `_resource_url(pk)`: `base/resource/pk/` */
  function ResourceUrl(m: ModelMeta, pk: Value): Url {
    Url(m.baseUrl + "/" + m.resource + "/" + PkText(pk) + "/", map[])
  }

  /** An item URL lies under its collection URL, and integer keys address distinct items. */
  lemma ResourceUrlUnderCollection(m: ModelMeta, a: int, b: int)
    ensures StartsWith(ResourceUrl(m, VInt(a)).path, ResourcesUrl(m).path)
    ensures EndsWith(ResourceUrl(m, VInt(a)).path, "/")
    ensures ResourceUrl(m, VInt(a)) == ResourceUrl(m, VInt(b)) ==> a == b
  {
    var prefix := ResourcesUrl(m).path;
    var pa, pb := ResourceUrl(m, VInt(a)).path, ResourceUrl(m, VInt(b)).path;
    assert pa == prefix + PkText(VInt(a)) + "/";
    assert pa[..|prefix|] == prefix;
    if pa == pb {
      assert pa[|prefix|..|pa| - 1] == PkText(VInt(a));
      assert pb[|prefix|..|pb| - 1] == PkText(VInt(b));
      IntPkTextInjective(a, b);
    }
  }

  /** `_handle_response_status_code`: the error a status code raises, if any. */
  function StatusError(status: int, model: string): (e: Option<Error>)
    ensures e.None? <==> 200 <= status < 300
    ensures e == Some(BadRequest) <==> status == 400
    ensures e == Some(DoesNotExist(model)) <==> status == 404
    ensures e == Some(BadGateway) <==> status == 502
    ensures e == Some(Conflict) <==> status == 409
    ensures e == Some(ServerResponse(status)) <==>
              !(200 <= status < 300) && status !in {400, 404, 409, 502}
  {
    if 200 <= status < 300 then None
    else if status == 400 then Some(BadRequest)
    else if status == 404 then Some(DoesNotExist(model))
    else if status == 502 then Some(BadGateway)
    else if status == 409 then Some(Conflict)
    else Some(ServerResponse(status))
  }
}
