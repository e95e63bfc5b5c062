/** The error maps the forms build: a `MutableMap<String, String>` from field key to the
    message shown under that field, filled by conditional `put`s. */
module ErrorMaps {
  import opened Wrappers

  /** `errors[key]`: the message shown under a field, if any. */
  function ErrorFor(e: map<string, string>, key: string): Option<string> {
    if key in e then Some(e[key]) else None
  }

  /** One conditional `put`: the key takes the message when the test holds; every other
      key keeps what it had. */
  function PutIf(e: map<string, string>, key: string, test: bool, message: string)
    : (r: map<string, string>)
    ensures ErrorFor(r, key) == if test then Some(message) else ErrorFor(e, key)
    ensures forall k :: k != key ==> ErrorFor(r, k) == ErrorFor(e, k)
    ensures r.Keys <= e.Keys + {key}
  {
    if test then e[key := message] else e
  }
}
