/**
 * The two compilation units `generateCode` builds for every unit before the
 * shim maker adds the per-method members: an interface named after the unit
 * and a non-public implementation class beside it.
 */
module Skeletons {

  /** The block comment that heads every generated file. */
  const AutoGeneratedComment: string :=
    "\n" +
    "[NOTE] This is an automatically generated file.\n" +
    "       Do not make changes to this file but to the shim code generator.\n" +
    "\n"

  const VertxCoreImport: string := "io.vertx.core.*"
  const CodegenAnnotationsImport: string := "io.vertx.codegen.annotations.*"
  const OpenSearchClientImport: string := "org.opensearch.client.*"

  /** The annotation that makes an interface visible to Vert.x code generation. */
  const VertxGenAnnotation: string := "VertxGen"

  /** Appended to a unit's name to name its implementation class. */
  const ImplSuffix: string := "Impl"

  datatype Kind = Interface | Class

  /** The one type a generated unit declares. */
  datatype TypeDecl = TypeDecl(
    kind: Kind,
    name: string,
    isPublic: bool,
    annotations: seq<string>,
    implementedTypes: seq<string>)

  /** A compilation unit with its block comment, package, imports and type, but no members yet. */
  datatype Skeleton = Skeleton(
    blockComment: string,
    packageName: string,
    imports: seq<string>,
    decl: TypeDecl)

  /** The interface unit: `addInterface` declares a public interface, then annotated `@VertxGen`. */
  function ShimInterface(unitName: string, pkg: string): Skeleton
  {
    Skeleton(
      AutoGeneratedComment, pkg,
      [VertxCoreImport, CodegenAnnotationsImport, OpenSearchClientImport],
      TypeDecl(Interface, unitName, true, [VertxGenAnnotation], []))
  }

  /** The implementation unit: `addClass` declares a public class, made package-private and implementing the interface. */
  function ShimImplementation(unitName: string, pkg: string): Skeleton
  {
    Skeleton(
      AutoGeneratedComment, pkg,
      [VertxCoreImport, OpenSearchClientImport],
      TypeDecl(Class, unitName + ImplSuffix, false, [], [unitName]))
  }

  /** The set of imports of a unit. */
  function ImportSet(s: Skeleton): set<string>
  {
    set i | i in s.imports
  }

  /**
   * How the halves of a shim belong together: a public `@VertxGen` interface,
   * and a non-public class named after it with `Impl` that implements exactly
   * it, both under the generated-file banner and in one package, the class
   * importing strictly less than the interface.
   */
  predicate IsShimPair(iface: Skeleton, impl: Skeleton)
  {
    && iface.decl.kind == Interface && iface.decl.isPublic
    && VertxGenAnnotation in iface.decl.annotations
    && impl.decl.kind == Class && !impl.decl.isPublic
    && impl.decl.name == iface.decl.name + ImplSuffix
    && impl.decl.implementedTypes == [iface.decl.name]
    && iface.blockComment == AutoGeneratedComment && impl.blockComment == AutoGeneratedComment
    && iface.packageName == impl.packageName
    && ImportSet(impl) < ImportSet(iface)
  }

  /** The two units built for `unitName` form a shim pair for that unit, in the target package. */
  lemma ShimPairShape(unitName: string, pkg: string)
    ensures IsShimPair(ShimInterface(unitName, pkg), ShimImplementation(unitName, pkg))
    ensures ShimInterface(unitName, pkg).decl.name == unitName
    ensures ShimInterface(unitName, pkg).packageName == pkg
  {
    var iface, impl := ShimInterface(unitName, pkg), ShimImplementation(unitName, pkg);
    assert ImportSet(impl) == {VertxCoreImport, OpenSearchClientImport};
    assert ImportSet(iface) == {VertxCoreImport, CodegenAnnotationsImport, OpenSearchClientImport};
    assert |CodegenAnnotationsImport| != |VertxCoreImport| && |CodegenAnnotationsImport| != |OpenSearchClientImport|;
  }
}
