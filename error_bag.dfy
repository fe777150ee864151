/** The error objects every form builds: one message per field name (and
    the reserved key `general`), where an empty message means "no error". */
module ErrorBag {

  /** A form's error object. `""` stands for every falsy entry the pages
      store (`undefined`, `null`, `''`): nothing reads them other than by
      truthiness. */
  type Bag = map<string, string>

  /** `Object.values(errors).every((e) => !e)`. */
  predicate NoErrors(errors: Bag)
  {
    forall k :: k in errors ==> errors[k] == ""
  }

  /** The entries that survive the cleanup loop. */
  function Truthful(errors: Bag): (r: Bag)
  {
    map k | k in errors && errors[k] != "" :: errors[k]
  }

  /** The submission guard: after the cleanup, the bag is empty exactly when
      no entry held a message. */
  lemma NothingLeftIffNoErrors(errors: Bag)
    ensures Truthful(errors) == map[] <==> NoErrors(errors)
  {
    if !NoErrors(errors) {
      var k :| k in errors && errors[k] != "";
      assert k in Truthful(errors);
    }
  }

  /** The cleanup loop shared by every submission action:
      `Object.keys(errors).forEach((key) => { if (!errors[key]) delete errors[key]; })`.
      It keeps exactly the keys with a message, each with its message. */
  method DropFalsy(errors: Bag) returns (r: Bag)
    ensures forall k :: k in r <==> k in errors && errors[k] != ""
    ensures forall k :: k in r ==> r[k] == errors[k]
    ensures r == Truthful(errors)
  {
    r := errors;
    var keys := errors.Keys;
    while keys != {}
      invariant keys <= errors.Keys
      invariant forall k :: k in r ==> k in errors && r[k] == errors[k]
      invariant forall k :: k in keys ==> k in r
      invariant forall k :: k in errors && k !in keys ==> (k in r <==> errors[k] != "")
      decreases keys
    {
      var k :| k in keys;
      if r[k] == "" {
        r := r - {k};
      }
      keys := keys - {k};
    }
  }
}
