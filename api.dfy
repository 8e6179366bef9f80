/**
 * The error-mapping continuations that calling code attaches to API calls:
 * `catchFieldErrors` spreads a 422's per-field messages over form-field
 * setters and its object-level messages into an optional slot,
 * `notifyError` turns a server `detail` into an error toast, and
 * `suppressError` swallows the error.
 */
module Api {
  import opened Wrappers
  import opened JsValue
  import opened Http
  import N = Notification

  /** One call `fields[field].setErrors(message)`. */
  datatype SetterCall = SetErrors(field: string, message: string)

  /** The separator both joins use. */
  const Separator := ", "

  /** The response of a thrown value: only an axios error can carry one. */
  function ResponseOf(err: Thrown): Option<Response> {
    if err.AxiosError? then err.error.response else None
  }

  /** `status === 422 && data && data["errors"]` */
  predicate HasFieldErrors(err: Thrown) {
    && ResponseOf(err).Some?
    && ResponseOf(err).value.status == 422
    && Truthy(ResponseOf(err).value.data)
    && Truthy(Get(ResponseOf(err).value.data, "errors"))
  }

  /** The setter call the loop makes for one key of `errors`, if any. */
  function CallFor(field: string, errors: Json, fields: set<string>): seq<SetterCall> {
    if field in fields && NonEmptyArray(Get(errors, field))
    then [SetErrors(field, Join(Get(errors, field).items, Separator))]
    else []
  }

  /** The setter calls the loop over `keys` makes, in order. */
  function FieldErrorCalls(keys: seq<string>, errors: Json, fields: set<string>): (calls: seq<SetterCall>)
    ensures |calls| <= |keys|
  {
    if keys == [] then []
    else FieldErrorCalls(keys[..|keys| - 1], errors, fields) + CallFor(keys[|keys| - 1], errors, fields)
  }

  /**
   * A setter is called with a message exactly when its field is a key of
   * `errors`, has a field entry and holds a non-empty array, and the message
   * is that array joined with ", ".
   */
  lemma {:induction false} FieldErrorCallsExactly(keys: seq<string>, errors: Json, fields: set<string>, call: SetterCall)
    ensures call in FieldErrorCalls(keys, errors, fields) <==>
              && call.field in keys
              && call.field in fields
              && NonEmptyArray(Get(errors, call.field))
              && call.message == Join(Get(errors, call.field).items, Separator)
  {
    if keys != [] {
      var init := keys[..|keys| - 1];
      FieldErrorCallsExactly(init, errors, fields, call);
      assert keys == init + [keys[|keys| - 1]];
    }
  }

  /** Every call names a field that has an entry: keys without one are skipped. */
  lemma {:induction false} FieldErrorCallsOnlyKnownFields(keys: seq<string>, errors: Json, fields: set<string>)
    ensures forall c :: c in FieldErrorCalls(keys, errors, fields) ==> c.field in fields
  {
    forall c | c in FieldErrorCalls(keys, errors, fields)
      ensures c.field in fields
    {
      FieldErrorCallsExactly(keys, errors, fields, c);
    }
  }

  /** `objectErrors` joined into the slot, when the slot is given and the value is an array on a 422. */
  function GlobalWrite(err: Thrown, hasGlobal: bool): (w: Option<string>)
    ensures w.Some? <==>
              && hasGlobal
              && ResponseOf(err).Some? && ResponseOf(err).value.status == 422
              && Get(ResponseOf(err).value.data, "objectErrors").Arr?
    ensures w.Some? ==> w.value == Join(Get(ResponseOf(err).value.data, "objectErrors").items, Separator)
  {
    if ResponseOf(err).Some? then
      var data := ResponseOf(err).value.data;
      if ResponseOf(err).value.status == 422 && Truthy(data) && Truthy(Get(data, "objectErrors"))
         && Get(data, "objectErrors").Arr? && hasGlobal
      then Some(Join(Get(data, "objectErrors").items, Separator))
      else None
    else None
  }

  /**
   * The handler `catchFieldErrors(fields, global)` returns, applied to `err`.
   * `fields` is the set of field names that have an entry, `hasGlobal` says
   * whether a slot was passed. It reports the setter calls in the order it
   * makes them and the string written to `global.value` (`None`: no write),
   * and always ends by rethrowing `err`.
   */
  method CatchFieldErrors(err: Thrown, fields: set<string>, hasGlobal: bool)
    returns (calls: seq<SetterCall>, globalValue: Option<string>, rethrown: Thrown)
    ensures rethrown == err
    ensures HasFieldErrors(err) ==>
              var errors := Get(ResponseOf(err).value.data, "errors");
              calls == FieldErrorCalls(Keys(errors), errors, fields)
    ensures !HasFieldErrors(err) ==> calls == []
    ensures globalValue == GlobalWrite(err, hasGlobal)
  {
    calls, globalValue := [], None;
    if ResponseOf(err).None? {
      rethrown := err;
      return;
    }
    var response := ResponseOf(err).value;
    var data := response.data;
    if response.status == 422 && Truthy(data) && Truthy(Get(data, "errors")) {
      var errors := Get(data, "errors");
      var keys := Keys(errors);
      var i := 0;
      while i < |keys|
        invariant 0 <= i <= |keys|
        invariant calls == FieldErrorCalls(keys[..i], errors, fields)
      {
        var field := keys[i];
        var value := Get(errors, field);
        if field in fields && value.Arr? && |value.items| > 0 {
          calls := calls + [SetErrors(field, Join(value.items, Separator))];
        }
        assert keys[..i + 1][..i] == keys[..i];
        i := i + 1;
      }
      assert keys[..|keys|] == keys;
    }
    var objectErrors := Get(data, "objectErrors");
    if response.status == 422 && Truthy(data) && Truthy(objectErrors) && objectErrors.Arr? && hasGlobal {
      globalValue := Some(Join(objectErrors.items, Separator));
    }
    rethrown := err;
  }

  /** A 422 without an `errors` member, or any other status, reaches no setter. */
  lemma NoSetterWithoutFieldErrors(err: Thrown)
    requires ResponseOf(err).Some?
    requires ResponseOf(err).value.status != 422 || !Truthy(Get(ResponseOf(err).value.data, "errors"))
    ensures !HasFieldErrors(err)
  {
  }

  /** How a `title` from the server becomes the toast's optional title. */
  function TitleOf(title: Json): (t: Option<string>)
    ensures Nullish(title) <==> t.None?
    ensures title.Str? ==> t == Some(title.s)
  {
    if Nullish(title) then None else Some(ToJsString(title))
  }

  /** Whether `notifyError` adds a toast for `err`: a response whose data carries a truthy `detail`. */
  predicate NotifiesFor(err: Thrown) {
    ResponseOf(err).Some? && !Nullish(ResponseOf(err).value.data)
    && Truthy(Get(ResponseOf(err).value.data, "detail"))
  }

  /**
   * The handler `notifyError()` returns, applied to `err`, with `id` the
   * uuid the store would generate. With a response whose data holds a
   * truthy `detail` it adds one error toast showing `detail` under `title`
   * (with the default timeout); destructuring a `null` or `undefined` body
   * throws a TypeError instead; otherwise nothing is added. It then rethrows.
   */
  method NotifyError(store: N.NotificationStore, err: Thrown, id: string) returns (rethrown: Thrown)
    requires store.Valid() && id !in store.issued
    modifies store
    ensures store.Valid()
    ensures ResponseOf(err).Some? && Nullish(ResponseOf(err).value.data) ==>
              rethrown == TypeError && store.messages == old(store.messages) && store.pending == old(store.pending)
    ensures !(ResponseOf(err).Some? && Nullish(ResponseOf(err).value.data)) ==> rethrown == err
    ensures NotifiesFor(err) ==>
              var data := ResponseOf(err).value.data;
              && store.messages == old(store.messages) +
                   [N.Message(id, ToJsString(Get(data, "detail")), TitleOf(Get(data, "title")), N.Kind.Error)]
              && store.pending == old(store.pending) + [N.Expiry(id, N.DefaultTimeout)]
    ensures !NotifiesFor(err) ==> store.messages == old(store.messages) && store.pending == old(store.pending)
  {
    rethrown := err;
    if ResponseOf(err).Some? {
      var data := ResponseOf(err).value.data;
      if Nullish(data) {
        rethrown := TypeError;
        return;
      }
      var title, detail := Get(data, "title"), Get(data, "detail");
      if Truthy(detail) {
        store.Error(ToJsString(detail), TitleOf(title), None, id);
      }
    }
  }

  /** The handler `suppressError()` returns: it settles normally for every error. */
  function SuppressError(err: Thrown): (r: Settled<()>)
    ensures r.Fulfilled?
  {
    Fulfilled(())
  }
}
