/** The type descriptors the generator dispatches on, and the rows of the
    parameter table it reads.  The descriptor classes come from stdapi and
    gltypes, and the table from glparams; those modules are inputs here. */
module GlTypes {
  import opened Results
  import opened Text

  /** The closed set of descriptor variants the visitors distinguish. */
  datatype Type =
    | Literal(expr: string, format: string)        // a C scalar with its format tag
    | Const(inner: Type)
    | Alias(expr: string, inner: Type)             // a typedef of another type
    | Enum(expr: string)
    | Bitmask(expr: string)
    | String(expr: string, size: Option<string>)   // None: NUL-terminated
    | Array(elem: Type, length: string)            // length is a C expression
    | Opaque(expr: string)

  /** The C spelling of a type, as it is printed into the generated code. */
  function Expr(t: Type): string {
    match t
    case Literal(e, _) => e
    case Const(inner) => "const " + Expr(inner)
    case Alias(e, _) => e
    case Enum(e) => e
    case Bitmask(e) => e
    case String(e, _) => e
    case Array(elem, _) => Expr(elem) + " *"
    case Opaque(e) => e
  }

  const Bool := Literal("bool", "Bool")
  const Int := Literal("int", "SInt")
  const UInt := Literal("unsigned", "UInt")
  const Float := Literal("float", "Float")
  const Double := Literal("double", "Double")

  const GLboolean := Alias("GLboolean", Bool)
  const GLint := Alias("GLint", Int)
  const GLenum := Enum("GLenum")
  const GLfloat := Alias("GLfloat", Float)
  const GLdouble := Alias("GLdouble", Double)
  const CString := String("const char *", None)
  const VoidPointer := Opaque("GLvoid *")

  /** The one-letter type shorthands of the parameter table. */
  const B := GLboolean
  const I := GLint
  const E := GLenum
  const F := GLfloat
  const D := GLdouble
  const S := CString
  const P := VoidPointer

  /** An element count: a number, or a C expression evaluated at run time. */
  datatype Count = Num(n: nat) | Symbolic(expr: string)

  /** Python's `str(count)`. */
  function CountText(c: Count): string {
    match c
    case Num(n) => Decimal(n)
    case Symbolic(e) => e
  }

  /** A row `(function, type, count, name)` of the parameter table.
      `functions` is the comma-separated list of query families the
      parameter belongs to; `declared == None` is the marker X of a
      parameter whose type is unknown. */
  datatype Param = Param(functions: string, declared: Option<Type>, count: Count, name: string)
}
