/**
 Values shared by every part of the REST client model: the JSON-like values
 that flow through filter parameters, entity attributes and server responses,
 the client's error kinds, and the usual Option/Result wrappers.
 */
module Base {

  datatype Option<+T> = None | Some(value: T) {
    function GetOr(default: T): T {
      match this
      case Some(v) => v
      case None => default
    }
  }

  /** The exceptions the client raises, one constructor per kind. */
  datatype Error =
    | DoesNotExist(model: string)          // per-model DoesNotExist
    | MultipleObjectsReturned(count: int)
    | NotPersisted                         // NotPersistedError
    | InvalidArgument                      // ValueError from exclude
    | NoneValueInParams
    | BadRequest                           // BadRequestResponse (400)
    | BadGateway                           // BadGatewayResponse (502)
    | Conflict                             // ConflictRespose (409)
    | ServerResponse(status: int)          // ServerResponseException
    | MissingKey(key: string)              // KeyError / AttributeError on an absent attribute
    | TypeMismatch                         // TypeError on a value of the wrong kind
    | IndexOutOfRange                      // IndexError
    | MissingBaseline                      // KeyError: a current attribute without an original value
    | MalformedResponse                    // a response body of an unexpected shape

  datatype Result<+T> = Ok(value: T) | Err(error: Error)

  /**
   A Python value as the client sees it: JSON scalars and containers,
   a model instance (represented by its class name and primary key),
   and the JSON text produced by encoding a dict.
   */
  datatype Value =
    | VNone
    | VBool(b: bool)
    | VInt(i: int)
    | VStr(s: string)
    | VList(items: seq<Value>)
    | VTuple(items: seq<Value>)
    | VDict(entries: map<string, Value>)
    | VEntity(model: string, pk: Value)
    | VJsonText(encoded: map<string, Value>)

  /** A dict of keyword arguments, attributes or a server record. */
  type Record = map<string, Value>

  /** Python truthiness. Model instances define no length, so they are always true. */
  predicate Truthy(v: Value) {
    match v
    case VNone => false
    case VBool(b) => b
    case VInt(i) => i != 0
    case VStr(s) => s != []
    case VList(xs) => xs != []
    case VTuple(xs) => xs != []
    case VDict(m) => m != map[]
    case VEntity(_, _) => true
    case VJsonText(_) => true
  }

  /** `value in ([], ())` */
  predicate IsEmptyListOrTuple(v: Value) {
    v == VList([]) || v == VTuple([])
  }
}
