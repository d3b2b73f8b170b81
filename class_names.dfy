/** The classnames utility as the checkbox calls it: a list of arguments, each either a
    `{ token: condition }` object or a plain class string, joined into one class attribute. */
module ClassNames {
  import opened Wrappers
  import opened JsValues
  import ClassList

  datatype ClassArg =
    /** `{ token: on }`: the key is kept when its value is truthy. */
    | Flag(token: string, on: JsValue)
    /** A string argument, possibly `undefined`: kept when truthy (non-empty). */
    | Name(value: Option<string>)

  /** The piece of class string one argument contributes: a flag's key or a non-empty string
      argument, kept verbatim (a string argument may itself hold several class tokens). */
  function ArgPieces(a: ClassArg): (ts: seq<string>)
    ensures |ts| <= 1
  {
    match a
    case Flag(t, on) => if Truthy(on) then [t] else []
    case Name(v) => if Truthy(OfString(v)) then [v.value] else []
  }

  /** The kept pieces of all arguments, in argument order. */
  function ClassPieces(args: seq<ClassArg>): (ts: seq<string>)
    ensures |ts| <= |args|
  {
    if args == [] then [] else ArgPieces(args[0]) + ClassPieces(args[1..])
  }

  /** The class string `classNames(...args)` returns. */
  function ClassString(args: seq<ClassArg>): string {
    ClassList.Join(ClassPieces(args))
  }

  /** Arguments are processed independently and left to right. */
  lemma {:induction false} ClassPiecesAppend(a: seq<ClassArg>, b: seq<ClassArg>)
    ensures ClassPieces(a + b) == ClassPieces(a) + ClassPieces(b)
  {
    if a == [] {
      assert a + b == b;
    } else {
      assert (a + b)[0] == a[0];
      assert (a + b)[1..] == a[1..] + b;
      ClassPiecesAppend(a[1..], b);
    }
  }

  /** A piece is kept exactly when some argument contributes it. */
  lemma {:induction false} ClassPiecesMember(args: seq<ClassArg>, t: string)
    ensures t in ClassPieces(args) <==> exists i :: 0 <= i < |args| && t in ArgPieces(args[i])
  {
    if args != [] {
      ClassPiecesMember(args[1..], t);
      if t in ClassPieces(args[1..]) {
        var i :| 0 <= i < |args[1..]| && t in ArgPieces(args[1..][i]);
        assert t in ArgPieces(args[i + 1]);
      }
      if exists i :: 0 <= i < |args| && t in ArgPieces(args[i]) {
        var i :| 0 <= i < |args| && t in ArgPieces(args[i]);
        if i > 0 {
          assert t in ArgPieces(args[1..][i - 1]);
        }
      }
    }
  }

  /** The class list the DOM reads from the joined string is the class lists of the arguments'
      pieces, in order. */
  lemma ClassListOfClassNames(args: seq<ClassArg>)
    ensures ClassList.Words(ClassString(args)) == ClassList.WordsOfAll(ClassPieces(args))
  {
    ClassList.WordsOfJoin(ClassPieces(args));
  }
}
