/**
 * `get_class`: a dotted class name is split into a module path (under a
 * prefix) and an attribute name. The dynamic import becomes a lookup in a
 * registry that maps module paths to the attributes they define.
 */
module Helpers {
  import opened Wrappers
  import opened Strings
  import opened BaseException

  /** The module path `prefix + ".".join(segments[:-1])` and the attribute `segments[-1]`. */
  function ClassPath(prefix: string, className: string): (string, string) {
    var segments := Split(className, ".");
    (prefix + Join(".", segments[..|segments| - 1]), segments[|segments| - 1])
  }

  /** The module path and attribute name derived from a class name, stated segment-free. */
  lemma ClassPathParts(prefix: string, className: string)
    ensures var (path, attribute) := ClassPath(prefix, className);
      && |prefix| <= |path| && path[..|prefix|] == prefix
      && '.' !in attribute
      && ('.' in className ==> path[|prefix|..] + "." + attribute == className)
      && ('.' !in className ==> path == prefix && attribute == className)
  {
    var segments := Split(className, ".");
    var (path, attribute) := ClassPath(prefix, className);
    var n := |segments|;
    SplitCharParts(className, '.');
    assert '.' !in attribute;
    JoinSplit(className, ".");
    if n == 1 {
      assert className == segments[0];
      assert segments[..0] == [];
      assert path == prefix;
    } else {
      JoinSnoc(".", segments);
      assert path == prefix + Join(".", segments[..n - 1]);
      assert path[|prefix|..] == Join(".", segments[..n - 1]);
      assert '.' in className by {
        var i := |Join(".", segments[..n - 1])|;
        assert className[i] == '.';
      }
    }
  }

  /**
   * `get_class(prefix, class_name)`: the module must be registered
   * (otherwise the import fails) and must define the attribute.
   */
  function GetClass<T>(registry: map<string, map<string, T>>, prefix: string, className: string): (r: Result<T, Exc>)
    ensures var (path, attribute) := ClassPath(prefix, className);
      && (r.Ok? <==> path in registry && attribute in registry[path])
      && (r.Ok? ==> r.value == registry[path][attribute])
  {
    var (path, attribute) := ClassPath(prefix, className);
    if path !in registry then Err(ImportError(path))
    else if attribute !in registry[path] then Err(AttributeError(attribute))
    else Ok(registry[path][attribute])
  }
}
