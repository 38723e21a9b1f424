/** `Binary`: a leaf file paired with the destination name it is uploaded
    under, and the two `from` factories that compute that name. */
module Binaries {
  import opened Wrappers
  import opened Files
  import opened Strings

  datatype Binary = Binary(file: Node, name: string)

  /** The exception `from(file, null)` throws. */
  datatype ArgumentError = IllegalArgument(message: string)

  const NullParentMessage: string := "Parent shouldn't be null"

  /** The parent prefix as `from` normalises it: empty stays empty, a
      non-empty parent ends in exactly the `/` it had or one appended. */
  function NormalizeParent(parent: string): (p: string)
    ensures p == "" <==> parent == ""
    ensures p != "" ==> EndsWithSlash(p)
    ensures parent <= p && |p| <= |parent| + 1
    ensures EndsWithSlash(parent) ==> p == parent
  {
    if parent != "" && !EndsWithSlash(parent) then parent + "/" else parent
  }

  /** `Binary.from(file)`: the destination is the file's own name, the
      same Binary as naming the file under the empty parent. */
  function FromFile(file: Node): (b: Binary)
    ensures b.file == file && b.name == file.name
    ensures b == NamedUnder(file, "")
  {
    Binary(file, file.name)
  }

  /** `Binary.from(file, parent)` for a parent that is not null. */
  function NamedUnder(file: Node, parent: string): (b: Binary)
    ensures b.file == file
    ensures IsSuffix(file.name, b.name)
    ensures parent <= b.name
    ensures b.name[..|b.name| - |file.name|] == NormalizeParent(parent)
  {
    Binary(file, NormalizeParent(parent) + file.name)
  }

  /** `Binary.from(file, parent)`, where `None` is a null parent. */
  function From(file: Node, parent: Option<string>): (r: Result<Binary, ArgumentError>)
    ensures r.Failure? <==> parent.None?
    ensures r.Failure? ==> r.error == IllegalArgument(NullParentMessage)
    ensures r.Success? ==> r.value.file == file && IsSuffix(file.name, r.value.name)
  {
    match parent
    case None => Failure(IllegalArgument(NullParentMessage))
    case Some(p) => Success(NamedUnder(file, p))
  }

  /** An empty parent adds nothing: `from(file, "")` is `from(file)`. */
  lemma FromEmptyParent(file: Node)
    ensures From(file, Some("")) == Success(FromFile(file))
    ensures FromFile(file).name == file.name && FromFile(file).file == file
  {
  }

  /** A non-empty parent without a trailing `/` is separated from the file
      name by one inserted `/`. */
  lemma FromInsertsSeparator(file: Node, parent: string)
    requires parent != "" && !EndsWithSlash(parent)
    ensures From(file, Some(parent)) == Success(Binary(file, parent + "/" + file.name))
  {
  }

  /** Normalisation is idempotent: a parent with or without its trailing `/`
      names the file the same, so `from(f, "lib")` equals `from(f, "lib/")`. */
  lemma FromNormalizationIdempotent(file: Node, parent: string)
    ensures NormalizeParent(NormalizeParent(parent)) == NormalizeParent(parent)
    ensures parent != "" ==> From(file, Some(parent)) == From(file, Some(NormalizeParent(parent)))
    ensures From(file, Some("lib")) == From(file, Some("lib/"))
    ensures From(file, Some("lib")) == Success(Binary(file, "lib/" + file.name))
  {
    assert !EndsWithSlash("lib") && "lib" + "/" == "lib/";
    assert EndsWithSlash("lib/");
  }
}
