/**
 * The process environment, `os.environ`, which the decorator and the `step`
 * command both read and write.
 */
module Process {
  import opened Wrappers

  class Environ {
    var vars: map<string, string>

    constructor (vars: map<string, string>)
      ensures this.vars == vars
    {
      this.vars := vars;
    }

    /** `os.environ[name] = value`. */
    method Put(name: string, value: string)
      modifies this
      ensures vars == old(vars)[name := value]
    {
      vars := vars[name := value];
    }
  }

  /** `environ.get(name)`. */
  function Lookup(environ: map<string, string>, name: string): Option<string> {
    if name in environ then Some(environ[name]) else None
  }

  /** Whether a value read with `.get` counts as true in Python: present and not empty. */
  predicate Truthy(v: Option<string>) {
    v.Some? && v.value != ""
  }

  /** Python's `a or b` on two optional strings. */
  function Or(a: Option<string>, b: Option<string>): (r: Option<string>)
    ensures Truthy(r) <==> Truthy(a) || Truthy(b)
    ensures Truthy(a) ==> r == a
  {
    if Truthy(a) then a else b
  }
}
