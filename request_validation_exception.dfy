/** RequestValidationException: the library's own validation error, a message
    and a table from camel-cased property names to their messages. The naming
    convention conversion belongs to another package and is a parameter here. */
module RequestValidationErrors {
  import opened Pipeline

  datatype RequestValidationException = RequestValidationException(
    message: string,
    errors: map<string, seq<string>>,
    innerException: Option<Fault>)

  /** Two distinct keys of `table` that the conversion sends to the same key. */
  predicate KeysCollide(convert: string -> string, table: map<string, seq<string>>)
  {
    exists k1, k2 | k1 in table && k2 in table :: k1 != k2 && convert(k1) == convert(k2)
  }

  /** A conversion that merges no two keys keeps the number of keys. */
  lemma {:induction false} InjectiveImageSize(convert: string -> string, keys: set<string>)
    requires forall k1, k2 :: k1 in keys && k2 in keys && convert(k1) == convert(k2) ==> k1 == k2
    ensures |set k | k in keys :: convert(k)| == |keys|
    decreases |keys|
  {
    if keys != {} {
      var x :| x in keys;
      var rest := keys - {x};
      InjectiveImageSize(convert, rest);
      var image := set k | k in keys :: convert(k);
      var restImage := set k | k in rest :: convert(k);
      assert image == restImage + {convert(x)};
      assert convert(x) !in restImage;
    }
  }

  /** `new Dictionary(errors.Select(kv => (convert(kv.Key), kv.Value)))`: every
      key converted, every value kept; a repeated converted key throws. */
  function ConvertKeys(convert: string -> string, table: map<string, seq<string>>): (r: Result<map<string, seq<string>>, Fault>)
    ensures r.Failure? <==> KeysCollide(convert, table)
    ensures r.Failure? ==> r.error == DuplicateKey
    ensures r.Success? ==> r.value.Keys == set k | k in table :: convert(k)
    ensures r.Success? ==> forall k :: k in table ==> r.value[convert(k)] == table[k]
    ensures r.Success? ==> |r.value| == |table|
  {
    if KeysCollide(convert, table) then Failure(DuplicateKey)
    else
      var converted := map k | k in table :: convert(k) := table[k];
      assert converted.Keys == set k | k in table :: convert(k);
      InjectiveImageSize(convert, table.Keys);
      Success(converted)
  }

  /** The (message, errors, innerException) constructor. */
  function FromErrors(message: string, errors: map<string, seq<string>>, convert: string -> string,
                      innerException: Option<Fault> := None): (r: Result<RequestValidationException, Fault>)
    ensures r.Failure? <==> KeysCollide(convert, errors)
    ensures r.Success? ==> r.value.message == message && r.value.innerException == innerException
    ensures r.Success? ==> |r.value.errors| == |errors|
    ensures r.Success? ==> forall k :: k in errors ==> convert(k) in r.value.errors && r.value.errors[convert(k)] == errors[k]
    ensures r.Success? ==> forall k :: k in r.value.errors ==> exists k' :: k' in errors && k == convert(k')
  {
    match ConvertKeys(convert, errors)
    case Failure(f) => Failure(f)
    case Success(table) => Success(RequestValidationException(message, table, innerException))
  }

  /** The (message, propertyName, propertyErrorMessages, innerException) constructor:
      one key, holding every message in the order given. */
  function FromMessages(message: string, propertyName: string, propertyErrorMessages: seq<string>, convert: string -> string,
                        innerException: Option<Fault> := None): (r: RequestValidationException)
    ensures r.message == message && r.innerException == innerException
    ensures r.errors == map[convert(propertyName) := propertyErrorMessages]
  {
    var built := FromErrors(message, map[propertyName := propertyErrorMessages], convert, innerException);
    assert !KeysCollide(convert, map[propertyName := propertyErrorMessages]);
    built.value
  }

  /** The (message, propertyName, propertyErrorMessage, innerException) constructor:
      one key, holding a one-element array. */
  function FromMessage(message: string, propertyName: string, propertyErrorMessage: string, convert: string -> string,
                       innerException: Option<Fault> := None): (r: RequestValidationException)
    ensures r.message == message && r.innerException == innerException
    ensures r.errors == map[convert(propertyName) := [propertyErrorMessage]]
  {
    var built := FromErrors(message, map[propertyName := [propertyErrorMessage]], convert, innerException);
    assert !KeysCollide(convert, map[propertyName := [propertyErrorMessage]]);
    built.value
  }

  /** The (propertyName, propertyErrorMessage, innerException) constructor: the
      property's message doubles as the exception's message. */
  function FromPropertyError(propertyName: string, propertyErrorMessage: string, convert: string -> string,
                             innerException: Option<Fault> := None): (r: RequestValidationException)
    ensures r.message == propertyErrorMessage
    ensures r.errors == map[convert(propertyName) := [propertyErrorMessage]]
    ensures r.innerException == innerException
  {
    FromMessage(propertyErrorMessage, propertyName, propertyErrorMessage, convert, innerException)
  }
}
