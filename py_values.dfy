/**
  The small part of Python's value semantics that the request handlers of
  the translation gateway depend on: reading a field of a JSON body with
  `dict.get`, Python truthiness (`not v`), and rendering a value inside an
  f-string.
 */
module PyValues {

  /** A value of a request field as the handlers see it: JSON null (Python `None`) or a string. */
  datatype PyVal = PyNone | PyStr(s: string)

  /** A field of a JSON request body or query string: absent, or present with a value. */
  datatype Field = Absent | Present(value: PyVal)

  /**
    `data.get(key, default)`: the default is used only when the key is absent;
    a key that is present with JSON null yields `None`, not the default.
   */
  function Get(f: Field, default: PyVal): (v: PyVal)
    ensures f.Absent? ==> v == default
    ensures f == Present(PyNone) ==> v == PyNone
    ensures f.Present? ==> v == f.value
  {
    match f
    case Absent => default
    case Present(x) => x
  }

  /** `not v` for a string-or-None: true for `None` and for the empty string. */
  function Falsy(v: PyVal): (falsy: bool)
    ensures !falsy <==> v.PyStr? && |v.s| > 0
  {
    v == PyNone || v == PyStr("")
  }

  /** `f"{v}"`: a string renders as itself, `None` as the four letters "None". */
  function Render(v: PyVal): (r: string)
    ensures v.PyStr? ==> r == v.s
    ensures v.PyNone? ==> r == "None"
  {
    match v
    case PyNone => "None"
    case PyStr(s) => s
  }
}
