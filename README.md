# Octree child spaces and shape-detection configuration

A Dafny model of two pieces of the point-cloud shape detector in Project BUBO, which follows the
octree-accelerated RANSAC method of Schnabel et al. (2007):

- **Octree child-space geometry** (`ConstructOctree_F64`). `computeDivider` writes the centre of a
  node's cube into its divider point. `setChildSpace` fills in the sub-cube of child `index` of a
  parent cube. It starts from the parent's lower corner and replaces coordinates by the divider's:
  bit value 1 replaces y, 2 replaces x, 4 replaces z. The upper corner is the lower corner plus half
  the parent's length on each axis. `initialize` resets the builder and stores the root cube.
  These in-place operations are methods on small classes (`Point3D`, `Cube3D`, `Octree`,
  `OctreeBuilder`). They are proved against the pure functions `Midpoint` and `ChildCube`. Lemmas
  about those functions state what the subdivision guarantees: children are half-size, lie inside
  the parent, have distinct lower corners and tile the parent's half-open box exactly once.
- **Configuration** (`ConfigSchnabel2007`). The field defaults, the guard `checkConfig`, and
  `createDefault`. `createDefault` rejects checks given without shapes. It replaces a null or empty
  shape list by all shape kinds and a null check list by absent checks, then rejects mismatched
  lengths. Finally it builds one shape description per requested kind, in order. The method
  `CreateDefault` validates and normalises the inputs and runs the source's loop (the method
  `AssembleDescriptions`); it is proved equal to the function `CreateDefaultResult`.
  That function's contract and the lemmas beside it state the validation and assembly rules.

Files: `wrappers.dfy` (Option/Result/Outcome for null and exceptions), `geometry.dfy` (point and
cube values and mutable objects), `construct_octree.dfy`, `config_schnabel2007.dfy`.

Two points where the code decides the model:

- `checkConfig`'s exception message says `octreeSplit` should be "at least 3 times" the sample
  size, but the code throws only when `octreeSplit < minModelAccept`
  (core/src/bubo/ptcloud/alg/ConfigSchnabel2007.java:80-82). `CheckConfig` models that comparison.
  The defaults 100 and 50 pass it, and a "3 times" rule would reject them.
- `setChildSpace` checks nothing about the parent cube, so the child-space functions take any
  cube. Only the lemmas that need it ask for a well-formed or non-degenerate cube.

## Model

| member | source | states |
|---|---|---|
| ConstructOctree.Midpoint | core/src/bubo/construct/ConstructOctree_F64.java:36-41 | the divider is equidistant from the cube's two corners on every axis |
| ConstructOctree.ComputeDivider | core/src/bubo/construct/ConstructOctree_F64.java:36-41 | the divider object ends up holding the centre of the cube; the cube is unchanged unless the divider object is one of its corners |
| ConstructOctree.ChildLowerCorner | core/src/bubo/construct/ConstructOctree_F64.java:46-68 | for index 0..7 the lower corner takes the divider's y iff bit value 1 is set, its x iff bit value 2 is set, its z iff bit value 4 is set, and the parent's coordinate otherwise; any other index keeps the parent's lower corner |
| ConstructOctree.ChildCube | core/src/bubo/construct/ConstructOctree_F64.java:43-74 | the child's lower corner is the parent's with the divider's coordinates the index selects (`ChildLowerCorner`), and each side of the child is exactly half the corresponding side of the parent |
| ConstructOctree.FirstChildAndOutOfRange | core/src/bubo/construct/ConstructOctree_F64.java:46-68 | child 0 keeps the parent's lower corner; an index outside 0..7 yields the same cube as index 0 |
| ConstructOctree.ChildSpansHalf | core/src/bubo/construct/ConstructOctree_F64.java:36-72 | with the midpoint as divider, on each axis the child spans `[p0, mid]` or `[mid, p1]`, as the index's bit for that axis says |
| ConstructOctree.ChildInsideParent | core/src/bubo/construct/ConstructOctree_F64.java:36-72 | with the midpoint as divider, every child of a well-formed cube lies inside it |
| ConstructOctree.ChildVolume | core/src/bubo/construct/ConstructOctree_F64.java:70-72 | each child has one eighth of the parent's volume |
| ConstructOctree.ChildrenTileParent | core/src/bubo/construct/ConstructOctree_F64.java:36-72 | every point of the parent's half-open box lies in the child `OctantOf` names, and a point in some child 0..7 lies in the parent and that child is the only one |
| ConstructOctree.DistinctLowerCorners | core/src/bubo/construct/ConstructOctree_F64.java:43-72 | in a cube of positive extent, two different indices 0..7 give children with different lower corners |
| ConstructOctree.SetChildSpace | core/src/bubo/construct/ConstructOctree_F64.java:43-74 | the child cube object ends up holding `ChildCube` of the parent's cube and divider; the parent's corners and divider are unchanged |
| ConstructOctree.OctreeBuilder.SetChildSpaceOfNode | core/src/bubo/construct/ConstructOctree_F64.java:28-31 | writes only the child node's cube, which becomes `ChildCube` of the parent node's cube and divider; the parent's cube and divider are unchanged |
| ConstructOctree.OctreeBuilder.Reset | core/src/bubo/construct/ConstructOctree_F64.java:24 | the tree's prior contents are discarded |
| ConstructOctree.OctreeBuilder.Initialize | core/src/bubo/construct/ConstructOctree_F64.java:23-26 | after a reset, the root node's space equals the given cube; the root's divider is unchanged |
| ConfigSchnabel2007.IntLiteral | core/src/bubo/ptcloud/alg/ConfigSchnabel2007.java:74 | a 32-bit `int` literal denotes the value in the signed 32-bit range congruent to its bit pattern modulo 2^32 |
| ConfigSchnabel2007.DefaultSeed | core/src/bubo/ptcloud/alg/ConfigSchnabel2007.java:74 | the default seed `0xDEADBEEF` widened to `long` is -559038737, not 3735928559 |
| ConfigSchnabel2007.DefaultConfig | core/src/bubo/ptcloud/alg/ConfigSchnabel2007.java:44-74 | a fresh configuration has no models, localFitMaxIterations 100, localFitChangeThreshold 1e-8, octreeSplit 100, minModelAccept 50, ransacExtension 15, maximumAllowedIterations 1000 and the seed `IntLiteral(0xDEADBEEF)` |
| ConfigSchnabel2007.CheckConfig | core/src/bubo/ptcloud/alg/ConfigSchnabel2007.java:79-84 | the guard passes iff `minModelAccept <= octreeSplit`; otherwise it fails |
| ConfigSchnabel2007.DefaultPassesCheck | core/src/bubo/ptcloud/alg/ConfigSchnabel2007.java:48-84 | the field defaults pass the guard |
| ConfigSchnabel2007.RequestedKinds | core/src/bubo/ptcloud/alg/ConfigSchnabel2007.java:110-112 | a non-empty `shapes` is used as given; a null or empty one is replaced by all kinds, so the list is non-empty whenever the enumeration is |
| ConfigSchnabel2007.RequestedChecks | core/src/bubo/ptcloud/alg/ConfigSchnabel2007.java:114-115 | a non-null `checks` is used as given; a null one becomes that many absent checks |
| ConfigSchnabel2007.Describe | core/src/bubo/ptcloud/alg/ConfigSchnabel2007.java:122-167 | a description exists iff the kind is SPHERE, CYLINDER or PLANE; it is coherent for that kind, carries the RANSAC threshold as `thresholdFit`, passes on the tolerances and fit iterations, and its generator holds exactly the given check |
| ConfigSchnabel2007.Descriptions | core/src/bubo/ptcloud/alg/ConfigSchnabel2007.java:120-169 | succeeds iff every kind is supported; then one description per kind, in order, each describing its kind with its index's check; otherwise the error names the first unsupported kind |
| ConfigSchnabel2007.AssembleDescriptions | core/src/bubo/ptcloud/alg/ConfigSchnabel2007.java:118-169 | the for-each loop with its index counter returns exactly `Descriptions` of the normalised kinds and checks |
| ConfigSchnabel2007.CreateDefaultResult | core/src/bubo/ptcloud/alg/ConfigSchnabel2007.java:100-175 | null shapes with non-null checks fail with that error and no other case gives it; a length mismatch after normalisation fails with that error; otherwise an unsupported kind fails with the unsupported-shape error; the split-threshold error never occurs; success iff none of these holds; on success the models are one description per requested kind in order with its check, and every other field keeps its default; an unsupported-kind error names the first such kind |
| ConfigSchnabel2007.CreateDefault | core/src/bubo/ptcloud/alg/ConfigSchnabel2007.java:100-175 | the validation, normalisation and loop return exactly what `CreateDefaultResult` describes |
| ConfigSchnabel2007.EmptyShapesAndChecksRejected | core/src/bubo/ptcloud/alg/ConfigSchnabel2007.java:110-117 | empty shapes and empty checks are rejected for a length mismatch, because the empty shapes are first replaced by all kinds |
| ConfigSchnabel2007.NullShapesDescribeAllKinds | core/src/bubo/ptcloud/alg/ConfigSchnabel2007.java:110-115 | with null shapes and null checks, every kind of a SPHERE, CYLINDER, PLANE enumeration gets a description, in that order, with no check |
| ConfigSchnabel2007.CreatedConfigPassesCheck | core/src/bubo/ptcloud/alg/ConfigSchnabel2007.java:171-174 | a configuration returned by `createDefault` passes `checkConfig` |

## Left out

- Octree insertion, node splitting and the node storage of the base class `ConstructOctree` are not part of this model. `reset` is modelled only as discarding the points the tree held.
- An octree node's children, point list and parent link are not modelled; a node is its cube and its divider.
- Coordinates, tolerances and thresholds are `real`: the rounding of Java `double` arithmetic in `/ 2.0` and `+` is not modelled.
- `Cube3D_F64.getLengthX/Y/Z` and `Cube3D_F64.set` belong to georegression, which is not part of this model. The lengths are taken as `p1 - p0`, and `set` copies the other cube's corner values.
- SetChildSpace: requires the child's corner objects to be distinct from the parent's corners and divider; what the source computes when they alias is not modelled.
- OctreeBuilder.SetChildSpaceOfNode: the same aliasing requirement as `SetChildSpace`.
- The declaration of the shape-kind enumeration is not part of this model. Its `values()` is the parameter `allKinds`, and the constructor `OtherKind` stands for any constant other than SPHERE, CYLINDER and PLANE.
- A null element inside the `shapes` array, which makes the source's `switch` throw a null-pointer exception, is not modelled.
- The georegression and bubo collaborators (model managers, distances, generators, fitters, codecs, shape checks) are opaque per-kind tags that record only their constructor arguments. Their behaviour is not modelled.
- Exception message texts are left out; each exception is an error tag.
- The Java `int` and `long` fields are unbounded integers; the configuration code does no arithmetic on them.
