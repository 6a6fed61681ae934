# Verified model of the immersed-boundary core

This project models, in Dafny, the parts of the immersed-boundary library in which a mistake would be
hard to see, and proves what they promise. Numbers are reals, the space dimension is three, and square
roots, sines, cosines and matrix square roots are given functions known only by their defining equations.
`dafny verify dfyconfig.toml` checks everything.

**Forces** (`Vectors`, `Increments`, `ForceElements`, `ForceIndexing`, `ForceLoops`, `ForceAssembly`,
`DistributedForce`, `ForceBalance`, `ForceLaws`, `ForceJacobian`, `JacobianAssembly`, `JacobianSymmetry`, `JacobianForm`,
`SpringRows`, `NodalWork`).
Every process caches the springs, beams and target points of its own nodes, renumbers them into slots of a
ghosted vector, runs hand-blocked loops over the slots and adds ghost entries back to their owners. The
reference is one serial loop over all elements in global numbering. The loops are methods over arrays; the
whole distributed computation is proved to leave the serial force at every node, for every distribution, and that
force to do the virtual work which the nodes' specifications prescribe.

**Time stepping** (`LagrangianData`, `IBMethod`, `TimeStepping`, `StepEquations`, `IBExplicitIntegrator`, `AnchoredNodes`,
`EagerPositions`).
`IBMethods.IBMethod` is a class with the dirty flags, lazily built half-time vectors, ghost flags and anchors of
the original. `IBExplicitIntegrator.ExplicitIntegrator` is the driver. The reference is a textbook midpoint or
trapezoidal step without flags or caches. One `AdvanceHierarchy` is proved to compute exactly that step, and every
cycle of it to solve the equations of its rule, written out in `StepEquations`.

**Directors** (`Rotations`, `Directors`) and **Kirchhoff rods** (`KirchhoffRods`, `RodLoads`). Triads are turned by
Rodrigues matrices through the angle |w| dt and stay orthonormal and right-handed over every run; rod networks exert no
net force or torque, a segment's load is the same for every observer, derives from an energy and vanishes exactly at rest
strains, and the nodal forces and torques lose the power that the segments take up.

**Flow meters** (`MeterGeometry`, `MeterInterpolation`, `MeterIndexing`, `MeterVisits`, `MeterReading`,
`MeterPanel`, `FlowMeters`, `WebQuadrature`, `AffineMeters`). The web of quadrilaterals, the map from cells to patches over nested refinement levels,
multilinear interpolation, accumulation over processes and the correction for the meter's own motion; what the meters
read in affine fields, exactly.

**Supporting parts** (`FESplitForces`, `WeakForm`, `TagBuffer`, `SpecStreams`, `SpecLayouts`, `RestartKeys`, `SourceRestart`,
`SourceLocations`, and the small `Options`, `Multisets`, `CDivision`, `RodSpecs`). Split against unsplit finite-element forces,
tag buffers, the streams of force specifications, restart tables and source positions.

## Where the code keeps less than one might expect

- With fixed coupling operators nothing in the explicit driver calls `updateFixedLEOperators`, so the velocity
  carried to the next step is interpolated at the old positions (`TimeStepping.FinalVelocity`); an example in which
  this matters is `TimeStepping.FixedVelocityLags`.
- `IBMethod` and `IBFEMethod` agree as long as a step keeps to one rule. After an interpolation at the new time a midpoint
  step moves `IBMethod` by the mean of the old and the interpolated velocity, and `IBFEMethod` by the half-time velocity
  it holds, so the two part unless those are equal (`EagerPositions.MixedRules`). That the velocity interpolated last is
  the old one does not suffice: `EagerPositions.DetourSeparates` gives the moves that separate them.
- A comment in the driver says that the force of the first of several trapezoidal cycles need not be recomputed. That holds
  if the force law gives the same force at both ends of the step for the positions and velocities the step starts with,
  and, where spreading tells forces apart, only then (`TimeStepping.SkippedForce`); a force that grows with time is a
  step in which it does not hold (`TimeStepping.SkippingCanMatter`).
- A tag buffer is wider than the finer level's along the axes with the greatest refinement ratio, by which the code
  divides. Along an axis with a smaller ratio it can be too narrow; every cascading buffer is wide enough along an axis
  exactly if the axis has the greatest ratio on every level (`TagBuffer.NestingIff`, `TagBuffer.NarrowExample`).
- Without a registered derivative the slope of a spring's tension is the centred difference: off by the cubic coefficient
  times the squared step for a cubic law, exact only for quadratic ones (`ForceJacobian.SlopeOfCubic`).
- The web of a meter takes a linear quantity at 2/3 - 1/6N^2 of the way from the centroid to an edge, the correction for
  the meter's own motion at 2/3. A meter carried along by a flow that is affine, not uniform, therefore reads 1/6N^2 of
  the change of the flow from the centroid to its edges, and zero exactly if that vanishes (`AffineMeters.CarriedMeterReads`).
- Split and unsplit finite-element forces have the same total exactly if the transmission forces on physical Dirichlet
  sides cancel: the split form spreads nothing there and puts nothing into the right-hand side
  (`FESplitForces.SplitMatchesUnsplit`, with a tetrahedron as example in `FESplitForces.DirichletSidesLeaveAGap`). With jump conditions
  the right-hand side also loses the tangential forces (`FESplitForces.JumpsDropTangentialPart`).
- A source generator is restored as it was exactly if every row is as long as its count. A level whose number of sources
  drops to zero keeps its old rows and so is not (`SourceRestart.RestoresIff`, `SourceRestart.InitializedMatches`).

## Model

| member | source | states |
|---|---|---|
| `ForceIndexing.SlotBijection` | src/IB/IBStandardForceGen.cpp:106-136 | localisation and "slot to global index" are inverse bijections between a process's local and ghost nodes and its slots |
| `ForceIndexing.ResetLocalPETScIndices` | src/IB/IBStandardForceGen.cpp:86-104 | every master index becomes its distance from the first local node |
| `ForceIndexing.ResetLocalOrNonlocalPETScIndices` | src/IB/IBStandardForceGen.cpp:106-136 | every index, local or ghost, becomes its slot |
| `ForceIndexing.InitializeSpringLevelData` | src/IB/IBStandardForceGen.cpp:643-752 | the arrays hold all springs of the local nodes in order, and the set grows by exactly the slaves that are not local |
| `ForceIndexing.InitializeBeamLevelData` | src/IB/IBStandardForceGen.cpp:871-980 | the same for beams and both neighbours |
| `ForceIndexing.InitializeTargetPointLevelData` | src/IB/IBStandardForceGen.cpp:1094-1156 | the arrays hold all target points of the local nodes in order |
| `ForceAssembly.StandardForceGen.InitializeLevelData` | src/IB/IBStandardForceGen.cpp:166-241 | the cache describes this process's elements in slot numbering, and every ghost is a node of one of them |
| `ForceLoops.LookAheadInRange` | src/IB/IBStandardForceGen.cpp:773-828 | for every element count every prefetched block starts, and every look-ahead at k+1 lies, below the count |
| `ForceLoops.ComputeLagrangianSpringForce` | src/IB/IBStandardForceGen.cpp:755-868 | blocks and tail together leave what one in-order loop leaves, short springs skipped |
| `ForceLoops.ComputeLagrangianBeamForce` | src/IB/IBStandardForceGen.cpp:983-1091 | the same for beams |
| `ForceLoops.ComputeLagrangianTargetPointForce` | src/IB/IBStandardForceGen.cpp:1159-1224 | the same for target points |
| `ForceElements.LoopPermutation` | src/IB/IBStandardForceGen.cpp:276-278 | the order of the elements changes no nodal force |
| `DistributedForce.GhostedCopy` | src/IB/IBStandardForceGen.cpp:257-265 | the ghosted copy holds own nodes first, then every ghost as its owner has it |
| `DistributedForce.LocalTotal` | src/IB/IBStandardForceGen.cpp:266-275 | the loop over slots leaves in a slot what the serial loop over the same elements leaves at the node it stands for |
| `DistributedForce.ScatterReverse` | src/IB/IBStandardForceGen.cpp:276-281 | every node owned elsewhere gains the process's ghost entry for it, and no other node changes |
| `DistributedForce.ComputeLagrangianForce` | src/IB/IBStandardForceGen.cpp:244-283 | every node gains exactly its force in one serial loop over the elements of all processes |
| `ForceBalance.LoopBalance` | src/IB/IBStandardForceGen.cpp:777-863 | the increments of any springs and beams sum to zero, and their moments to the beams' curvature couples |
| `ForceBalance.MeshBalance` | src/IB/IBStandardForceGen.cpp:1006-1086 | a whole mesh has no net force and, as net torque, the curvature couples alone |
| `ForceBalance.NoCouples` | src/IB/IBStandardForceGen.cpp:1006-1086 | without preferred curvature the couples vanish |
| `ForceBalance.DistributedBalance` | src/IB/IBStandardForceGen.cpp:257-281 | the balance holds for the vector assembled by all processes |
| `ForceJacobian.SlopeOfCubic` | src/IB/IBStandardForceGen.cpp:507-519 | without a registered derivative dT/dR of a cubic tension law is its derivative plus the cubic coefficient times the squared step, so exact exactly for quadratic laws |
| `ForceJacobian.SlopeBetween` | src/IB/IBStandardForceGen.cpp:507-519 | for any tension law that slope lies between the bounds of the law's chords |
| `JacobianAssembly.ComputeLagrangianForceJacobian` | src/IB/IBStandardForceGen.cpp:449-619 | the matrix gains the blocks of all cached springs, beams and target points |
| `ForceJacobian.MeshExact` | src/IB/IBStandardForceGen.cpp:561-611 | for beams and target points the blocks applied to a change of state give the change of the forces, exactly |
| `ForceJacobian.JacobianExact` | src/IB/IBStandardForceGen.cpp:561-611 | the same for the assembled matrices and every row |
| `JacobianSymmetry.JacobianSymmetric` | src/IB/IBStandardForceGen.cpp:531-611 | the Jacobian of any mesh is symmetric |
| `JacobianSymmetry.JacobianTranslation` | src/IB/IBStandardForceGen.cpp:531-591 | springs and beams: the Jacobian annihilates uniform translations |
| `JacobianSymmetry.SpringJacobianDirections` | src/IB/IBStandardForceGen.cpp:531-550 | a spring's block stretches its displacement by X_coef dT/dR and orthogonal vectors by X_coef T/R, and is missing exactly if its force is |
| `ForceLaws.SpringPulls` | src/IB/IBStandardForceGen.cpp:810-823 | in any mesh a spring no shorter than the cut-off adds to its master a force f with f . D = T R and no part across D, to its slave the opposite, and to no other node anything |
| `ForceLaws.AssembledSpringPulls` | src/IB/IBStandardForceGen.cpp:244-283 | the same for the force all processes assemble |
| `ForceLaws.TargetAtRest` | src/IB/IBStandardForceGen.cpp:1159-1224 | a target point at rest at its place adds nothing |
| `ForceLaws.VirtualWork` | src/IB/IBStandardForceGen.cpp:755-1224 | along any motion the assembled force works against tension times stretching, rigidity times excess bend along the bending, and pull and damping of target points, all read off the nodes' specifications; this determines it |
| `SpringRows.SpringInJacobian` | src/IB/IBStandardForceGen.cpp:507-559 | in the assembled matrix of any mesh a spring no shorter than the cut-off adds X_coef dT/dR times the stretch along it and X_coef T/R times the stretch across it to its master's row, the opposite to its slave's, and a shorter one nothing |
| `SpringRows.LinearMeshExact` | src/IB/IBStandardForceGen.cpp:507-611 | for Hookean springs, beams and target points J_X (Y - X) + J_U (V - U) is the change of every nodal force, exactly |
| `JacobianForm.JacobianIsForm` | src/IB/IBStandardForceGen.cpp:521-611 | between any two motions the assembled matrix gives minus the sum of the springs', beams' and target points' stiffness forms |
| `JacobianForm.JacobianDissipates` | src/IB/IBStandardForceGen.cpp:521-611 | with nonnegative rigidities, tensions, slopes, stiffnesses and dampings the assembled Jacobian is negative semidefinite |
| `IBMethods.IBMethod.PreprocessIntegrateData` | src/IB/IBMethod.cpp:338-422 | new positions and velocities start as copies of the current ones, half-time data as out of date |
| `IBMethods.IBMethod.PostprocessIntegrateData` | src/IB/IBMethod.cpp:425-488 | new data become current, the last force is kept, all scratch vectors and flags are cleared |
| `IBMethods.IBMethod.UpdateFixedLEOperators` | src/IB/IBMethod.cpp:491-505 | fixed coupling positions become the mean of current and new as of now |
| `IBMethods.IBMethod.GetPositionData` | src/IB/IBMethod.cpp:1400-1438 | in every state the position handed out at half time is the mean of current and new |
| `IBMethods.IBMethod.GetLECouplingPositionData` | src/IB/IBMethod.cpp:1441-1484 | coupling positions follow the structure, or stay at the last update where they are fixed |
| `IBMethods.IBMethod.GetVelocityData` | src/IB/IBMethod.cpp:1487-1520 | half-time velocity is the one last interpolated there, or the mean |
| `IBMethods.IBMethod.GetForceData` | src/IB/IBMethod.cpp:1523-1556 | the force of a time, zero if none was computed; a fresh ghost copy is never stale |
| `IBMethods.IBMethod.FillPositionGhosts` | src/IB/IBMethod.cpp:690-704 | positions reach a kernel with fresh ghosts, whatever the flags say |
| `IBMethods.IBMethod.InterpolateVelocity` | src/IB/IBMethod.cpp:527-541 | the velocity is interpolated at the coupling positions, zero at anchors |
| `IBMethods.IBMethod.EulerStep` | src/IB/IBMethod.cpp:544-562 | X_new = X + dt U and nothing else observable changes |
| `IBMethods.IBMethod.MidpointStep` | src/IB/IBMethod.cpp:565-583 | X_new = X + dt U_half |
| `IBMethods.IBMethod.TrapezoidalStep` | src/IB/IBMethod.cpp:586-606 | X_new = X + dt/2 (U + U_new) |
| `IBMethods.IBMethod.ComputeLagrangianForce` | src/IB/IBMethod.cpp:615-637 | the force of the positions and velocities of that time |
| `IBMethods.IBMethod.SpreadForce` | src/IB/IBMethod.cpp:690-704 | force and positions are spread with fresh ghosts, without force at the anchors |
| `IBMethods.IBMethod.ResetAnchorPointValues` | src/IB/IBMethod.cpp:1576-1605 | anchored entries become zero and no other changes |
| `IBExplicitIntegrator.ExplicitIntegrator.PreprocessIntegrateHierarchy` | src/IB/IBExplicitHierarchyIntegrator.cpp:111-219 | reports the cycle mismatch exactly if there is one; otherwise reaches the textbook prediction |
| `IBExplicitIntegrator.ExplicitIntegrator.IntegrateHierarchy` | src/IB/IBExplicitHierarchyIntegrator.cpp:222-370 | one call takes the state from one textbook cycle to the next and solves the rule's equations: which force, source and number of solver cycles the fluid is given, and where the nodes go |
| `IBExplicitIntegrator.ExplicitIntegrator.PostprocessIntegrateHierarchy` | src/IB/IBExplicitHierarchyIntegrator.cpp:373-452 | velocity interpolated once more, data handed over, every allocated index released |
| `IBExplicitIntegrator.ExplicitIntegrator.AdvanceHierarchy` | src/IB/IBExplicitHierarchyIntegrator.cpp:111-452 | a whole step of any number of cycles is the textbook step; a chain of records, one a cycle, solves the rule's equations and says what each cycle gave the fluid; positions end at X + dt U or X + dt/2 (U + U') of the last cycle, the force kept is the last one spread, and no patch data stay allocated |
| `StepEquations.CycleSolves` | src/IB/IBExplicitHierarchyIntegrator.cpp:222-370 | a midpoint cycle hands the fluid the force at mean positions and half time, a trapezoidal cycle the mean of the forces at both ends of the step, each spread at that time's coupling positions, or the old force alone in the first of several cycles |
| `StepEquations.StepSolves` | src/IB/IBExplicitHierarchyIntegrator.cpp:222-370 | the records of a whole step are chained: each cycle starts from the prediction and the inputs the one before left |
| `TimeStepping.MidpointStep` | src/IB/IBExplicitHierarchyIntegrator.cpp:307-356 | any number of midpoint cycles ends with X + dt U, U interpolated at the previous prediction's midpoint |
| `TimeStepping.TrapezoidalStep` | src/IB/IBExplicitHierarchyIntegrator.cpp:307-356 | any number of trapezoidal cycles ends with X + dt/2 (U + U'), U' interpolated at the previous prediction |
| `TimeStepping.FinalVelocity` | src/IB/IBExplicitHierarchyIntegrator.cpp:387-390 | the velocity carried on belongs to the new positions, or to the old ones under fixed operators |
| `TimeStepping.FixedVelocityLags` | src/IB/IBMethod.cpp:491-505 | a step in a shear flow after which that velocity is not the one at the new positions |
| `TimeStepping.SkippedForce` | src/IB/IBExplicitHierarchyIntegrator.cpp:255-268 | skipping the first cycle's force changes nothing if the starting state has the same force at both times, and only then where spreading tells forces apart |
| `TimeStepping.SkippingCanMatter` | src/IB/IBExplicitHierarchyIntegrator.cpp:255-268 | a step, under a force growing with time, whose first cycle differs if the force is not recomputed |
| `TimeStepping.SkippedForceTimeFree` | src/IB/IBExplicitHierarchyIntegrator.cpp:170-214 | under a force law without explicit time skipping changes nothing in any step |
| `TimeStepping.AnchoredCycles` | src/IB/IBMethod.cpp:1576-1605 | in every cycle anchored nodes are unmoved, at rest, and spread no force |
| `TimeStepping.AnchoredRun` | src/IB/IBMethod.cpp:1576-1605 | over every run of steps anchored nodes that start at rest stay in place and at rest |
| `AnchoredNodes.AnchoredReads` | src/IB/IBMethod.cpp:1487-1520 | after any moves with anchored velocities, velocity is zero and position unchanged at anchors for every time a step can read |
| `AnchoredNodes.DriverReads` | src/IB/IBMethod.cpp:1576-1605 | whatever the driver reads in a cycle, before and after its interpolation, has zero velocity at anchors |
| `EagerPositions.IBFEMethod.EulerStep` | src/IB/IBFEMethod.cpp:460-483 | new and half-time positions after the step, body velocity for constrained parts |
| `EagerPositions.IBFEMethod.MidpointStep` | src/IB/IBFEMethod.cpp:486-509 | the same for the midpoint step |
| `EagerPositions.IBFEMethod.TrapezoidalStep` | src/IB/IBFEMethod.cpp:512-539 | the same for the trapezoidal step |
| `EagerPositions.LazyIsEager` | src/IB/IBMethod.cpp:1559-1573 | after any moves of one rule lazily and eagerly averaged half-time positions agree |
| `EagerPositions.MixedRules` | src/IB/IBMethod.cpp:565-583 | after an interpolation at the new time a midpoint step moves both methods alike exactly if the mean of old and interpolated velocity is the half-time velocity held |
| `EagerPositions.DetourSeparates` | src/IB/IBFEMethod.cpp:486-509 | interpolating w at half time, then the old velocity at the new time, separates the methods' midpoint steps exactly if w is not the old velocity |
| `EagerPositions.FixedCouplingLags` | src/IB/IBMethod.cpp:491-505 | fixed coupling positions are those of the last update, whatever followed |
| `Rotations.ApplyRodrigues` | src/IB/GeneralizedIBMethod.cpp:337-382 | the matrix written entry by entry acts as c v + (1-c)(e.v) e + s (e x v) |
| `Rotations.KeepsDot` | src/IB/GeneralizedIBMethod.cpp:337-382 | R R^T = I: inner products are kept |
| `Rotations.KeepsCross` | src/IB/GeneralizedIBMethod.cpp:337-382 | det R = 1: the image of a cross product is the cross product of the images |
| `Rotations.KeepsAxis` | src/IB/GeneralizedIBMethod.cpp:337-382 | R e = e |
| `Directors.TurnedKeeps` | src/IB/GeneralizedIBMethod.cpp:337-382 | a director's turn, also below the cut-off, keeps inner and cross products |
| `Directors.AxisComponent` | src/IB/GeneralizedIBMethod.cpp:337-382 | the component of every director along the angular velocity stays the same |
| `Directors.TurnedIsThrough` | src/IB/GeneralizedIBMethod.cpp:350-368 | the part of a director across the axis is turned by cos and sin of norm(W) dt, the part along it kept; below the cut-off nothing moves |
| `Directors.QuarterTurns` | src/IB/GeneralizedIBMethod.cpp:350-368 | for a unit director across the axis the turned one has components cos and sin of norm(W) dt along it and along W x d |
| `Directors.GeneralizedIBMethod.EulerStep` | src/IB/GeneralizedIBMethod.cpp:327-384 | every new triad is the current one turned once, through the angle norm(W) dt about W, and stays a frame |
| `Directors.GeneralizedIBMethod.TrapezoidalStep` | src/IB/GeneralizedIBMethod.cpp:398-456 | the same about the mean of old and new angular velocity |
| `Directors.GeneralizedIBMethod.PreprocessIntegrateData` | src/IB/GeneralizedIBMethod.cpp:194-240 | new triads and angular velocities start as copies |
| `Directors.GeneralizedIBMethod.PostprocessIntegrateData` | src/IB/GeneralizedIBMethod.cpp:243-270 | the arrays change places and the triads carried on are the new ones |
| `Directors.GeneralizedIBMethod.Advance` | src/IB/GeneralizedIBMethod.cpp:398-456 | however many cycles predict them, triads end turned once from where the step began, through the angle given by the mean of the old and the last cycle's angular velocity |
| `Directors.DirectorsOverRuns` | src/IB/GeneralizedIBMethod.cpp:408-454 | over every run of steps triads stay orthonormal and right-handed; one without angular velocity never moves |
| `KirchhoffRods.InterpolateDirectors` | src/IB/IBKirchhoffRodForceGen.cpp:94-118 | the half directors are the square root of the aligning matrix applied to the directors |
| `KirchhoffRods.AlignCarries` | src/IB/IBKirchhoffRodForceGen.cpp:94-118 | the aligning matrix takes an orthonormal triad to the next node's |
| `KirchhoffRods.HalfDirectors` | src/IB/IBKirchhoffRodForceGen.cpp:94-118 | with an orthogonal root the half directors are orthonormal, and the root takes them to the next directors |
| `RodLoads.LoadIsObjective` | src/IB/IBKirchhoffRodForceGen.cpp:139-194 | seen by an observer moved and turned by an orthogonal matrix, force and torque are turned by it |
| `RodLoads.UnloadedIff` | src/IB/IBKirchhoffRodForceGen.cpp:139-194 | with nonzero stiffnesses a segment has no load exactly if stretch, shears, bends and twist have their reference values |
| `RodLoads.ForceIsGradient` | src/IB/IBKirchhoffRodForceGen.cpp:180-184 | the force is the gradient of a quadratic energy, whose second-order remainder is that of the stretch alone |
| `RodLoads.TorqueIsExcessTwist` | src/IB/IBKirchhoffRodForceGen.cpp:186-192 | along each half director the torque is the stiffness times the excess of the twist of the half rotation about it over its reference |
| `KirchhoffRods.ComputeLagrangianForceAndTorque` | src/IB/IBKirchhoffRodForceGen.cpp:497-550 | both vectors gain the contributions of every segment at both its nodes |
| `KirchhoffRods.RodsBalance` | src/IB/IBKirchhoffRodForceGen.cpp:497-530 | for any segments and loads the increments cancel in force and in X x F plus torque |
| `KirchhoffRods.ProcessBalance` | src/IB/IBKirchhoffRodForceGen.cpp:544-550 | one process changes neither total |
| `KirchhoffRods.ComputeAll` | src/IB/IBKirchhoffRodForceGen.cpp:430-558 | over all processes total force and total torque stay what they were, and along every motion the nodes lose the power of each segment: force along its stretching less its turning, torque along the difference of angular velocities; this determines the result |
| `MeterGeometry.LinesMeet` | src/IB/IBInstrumentPanel.cpp:184-193 | Cramer's rule for the lines through opposite edge midpoints gives one half twice |
| `MeterGeometry.DeterminantIsArea` | src/IB/IBInstrumentPanel.cpp:184-203 | the denominator is the square of the patch's area vector |
| `MeterGeometry.InitMeterElements` | src/IB/IBInstrumentPanel.cpp:125-208 | every patch has the mean of its vertices as centre and its area-weighted normal |
| `MeterGeometry.WedgeIsTriangle` | src/IB/IBInstrumentPanel.cpp:157-204 | the patches of a wedge telescope to the triangle with the centroid |
| `MeterGeometry.AreaOfBoundary` | src/IB/IBInstrumentPanel.cpp:146-205 | the meter's area vector depends on its perimeter only, not on the centroid |
| `MeterGeometry.ComputeFlowCorrection` | src/IB/IBInstrumentPanel.cpp:210-247 | the sum over the triangles of mean velocity times area |
| `MeterGeometry.UniformCorrection` | src/IB/IBInstrumentPanel.cpp:226-244 | one velocity everywhere gives that velocity times the area |
| `MeterInterpolation.WeightsConvex` | src/IB/IBInstrumentPanel.cpp:346-387 | in every direction the two weights are convex and average the data points to the point |
| `MeterInterpolation.LinearInterp` | src/IB/IBInstrumentPanel.cpp:331-448 | the triple loop computes the multilinear interpolant, cell- or side-centred |
| `MeterInterpolation.InterpolantConstant` | src/IB/IBInstrumentPanel.cpp:346-447 | constants are reproduced |
| `MeterInterpolation.InterpolantAffine` | src/IB/IBInstrumentPanel.cpp:346-447 | affine data are reproduced, on cells and on sides |
| `MeterInterpolation.InterpolantBetween` | src/IB/IBInstrumentPanel.cpp:346-387 | values lie between the bounds of the data |
| `MeterIndexing.FinerIndex` | src/IB/IBInstrumentPanel.cpp:846-856 | the finer cell of a point coarsens to its coarser cell |
| `MeterIndexing.PointInLevelCell` | src/IB/IBInstrumentPanel.cpp:946-958 | a point lies in the cell it is filed under, as the reading loop sees that cell |
| `MeterIndexing.FiledOnce` | src/IB/IBInstrumentPanel.cpp:811-817 | a point is filed on exactly one level if level zero holds it, and on none otherwise |
| `MeterIndexing.FiledOnFinest` | src/IB/IBInstrumentPanel.cpp:846-879 | that is the finest level on which some patch holds the point's cell |
| `MeterVisits.BuildMap` | src/IB/IBInstrumentPanel.cpp:818-879 | each level's map holds the points whose cell it holds and no finer level does, in order |
| `MeterVisits.CellsCount` | src/IB/IBInstrumentPanel.cpp:946-949 | a box is walked cell by cell, each once |
| `MeterVisits.VisitedOnce` | src/IB/IBInstrumentPanel.cpp:927-1018 | over all processes, levels, patches and cells a point is met once on its level and never otherwise |
| `MeterVisits.VisitsAreCanonical` | src/IB/IBInstrumentPanel.cpp:927-1018 | the visits are the points, each once, in some order |
| `MeterReading.ReadProcess` | src/IB/IBInstrumentPanel.cpp:927-1018 | one process's flow, pressure and area are the totals over what it meets |
| `MeterReading.ReadAll` | src/IB/IBInstrumentPanel.cpp:1020-1024 | the reductions give the totals over what all processes meet |
| `MeterReading.ReadWebs` | src/IB/IBInstrumentPanel.cpp:818-1024 | filing and reading together count every patch exactly once |
| `MeterPanel.Centroid` | src/IB/IBInstrumentPanel.cpp:757-766 | the mean of the perimeter |
| `MeterPanel.WebSize` | src/IB/IBInstrumentPanel.cpp:768-802 | patches are at most half a finest cell long, and there are none exactly if all nodes coincide with the centroid |
| `MeterPanel.AllSum` | src/IB/IBInstrumentPanel.cpp:800-806 | the patches of a meter among all meters carry its area vector |
| `FlowMeters.ReadInstrumentData` | src/IB/IBInstrumentPanel.cpp:886-1108 | each reading is the flux over all its patches less the correction, and the area-weighted mean pressure |
| `FlowMeters.CarriedMeterReadsZero` | src/IB/IBInstrumentPanel.cpp:1093-1108 | a meter carried along by a uniform flow reads exactly zero |
| `WebQuadrature.PatchOnMedian` | src/IB/IBInstrumentPanel.cpp:157-204 | patch n of N lies on the median of its triangle, (2(N-n)-1)/2N of the way to the edge, with (2(N-n)-1)/N^2 of its area |
| `WebQuadrature.WedgeRule` | src/IB/IBInstrumentPanel.cpp:157-204 | so a wedge takes a quantity linear along the median at 2/3 - 1/6N^2 of it |
| `WebQuadrature.CentroidBalances` | src/IB/IBInstrumentPanel.cpp:757-766 | the deviations of the perimeter from the centroid cancel |
| `AffineMeters.VelocityAffine` | src/IB/IBInstrumentPanel.cpp:331-447 | data that sample an affine flow, on the sides facing each component's axis if side-centred and at cell centres otherwise, are read as that flow at every point of every level |
| `AffineMeters.PressureAffine` | src/IB/IBInstrumentPanel.cpp:331-387 | the same for pressure at cell centres |
| `AffineMeters.RestingMeterReads` | src/IB/IBInstrumentPanel.cpp:927-1108 | a meter at rest in the flow a + G x reads the sum of (a + G x) . dA over its patches |
| `AffineMeters.AffineMeterReads` | src/IB/IBInstrumentPanel.cpp:927-1108 | a meter whose nodes move with an affine field reads the flux of the flow through its triangles, taken at 2/3 - 1/6N^2 of the medians, less that of its own motion, taken at 2/3 |
| `AffineMeters.CarriedMeterReads` | src/IB/IBInstrumentPanel.cpp:210-247 | so one carried along by an affine flow reads minus 1/6N^2 of the flow's spreading over the triangles, and zero exactly if that is zero |
| `AffineMeters.AffineMeanPressure` | src/IB/IBInstrumentPanel.cpp:981-1030 | the mean of an affine pressure is its area-weighted mean over the triangles, taken at 2/3 - 1/6N^2 of the medians; there is none exactly if their area is zero |
| `FlowMeters.AreaIsPatchArea` | src/IB/IBInstrumentPanel.cpp:981-991 | the area pressures are divided by is that of all the meter's patches |
| `FlowMeters.MeanBetweenMet` | src/IB/IBInstrumentPanel.cpp:981-1030 | the mean pressure lies between any bounds of the pressures interpolated at the meter's own patches |
| `FlowMeters.MeanBetweenOwnPatches` | src/IB/IBInstrumentPanel.cpp:981-1030 | two of its own patches have pressures at most and at least the mean |
| `FlowMeters.MeanPressureBetween` | src/IB/IBInstrumentPanel.cpp:1026-1030 | so it lies between the bounds of the pressure data |
| `FESplitForces.ComputeInteriorForceDensity` | src/IB/IBFEMethod.cpp:1045-1178 | the element, point, side and basis loops assemble the right-hand side in order |
| `WeakForm.AssembledIsWeakForm` | src/IB/IBFEMethod.cpp:1045-1178 | along any nodal velocities the right-hand side has the power of the weak form: minus stress against the velocity gradient, body force and boundary loads with the interpolated velocity; this determines every nodal entry |
| `FESplitForces.ComputeFaceForce` | src/IB/IBFEMethod.cpp:1102-1157 | transmission less pressure plus surface force, each if wanted, or its normal part alone |
| `FESplitForces.SpreadTransmissionForceDensity` | src/IB/IBFEMethod.cpp:1306-1383 | the point forces handed to the kernel, side by side, and none unless forces are split |
| `FESplitForces.AssembledTotal` | src/IB/IBFEMethod.cpp:1045-1178 | summed over all nodes only body forces and boundary forces are left: stresses cancel within elements |
| `FESplitForces.SplitMatchesUnsplit` | src/IB/IBFEMethod.cpp:1102-1166 | unsplit total = split total + spread total + Dirichlet transmission, so they agree exactly if the last vanishes |
| `FESplitForces.SplitMatchesWithoutDirichlet` | src/IB/IBFEMethod.cpp:1323-1384 | without Dirichlet sides they agree for every mesh, stress, body force, pressure and surface force |
| `FESplitForces.DirichletSidesLeaveAGap` | src/IB/IBFEMethod.cpp:1102-1120 | a linear tetrahedron held on one side, for which the totals differ by the traction on that side |
| `FESplitForces.JumpsDropTangentialPart` | src/IB/IBFEMethod.cpp:1146-1156 | jump conditions remove the tangential transmission forces from the total and nothing else |
| `FESplitForces.TangentialIsOrthogonal` | src/IB/IBFEMethod.cpp:1146-1156 | what is removed is orthogonal to the unit normal |
| `TagBuffer.SetupTagBuffer` | src/IB/IBMethod.cpp:313-335 | the least buffer at or above the input and the ghost width of data-bearing levels that cascades: each level the greatest of the two and of one more than the next level's buffer in its own cells |
| `TagBuffer.SetupTagBufferForParts` | src/IB/IBFEMethod.cpp:271-294 | the same for the levels of the finite-element parts |
| `TagBuffer.BuffersNest` | src/IB/IBMethod.cpp:330-333 | along an axis with the greatest ratio, in cells of any finer level a buffer is strictly wider than that level's own |
| `TagBuffer.NestingIff` | src/IB/IBMethod.cpp:330-333 | all cascading buffers nest along an axis exactly if it has the greatest ratio on every level |
| `TagBuffer.NarrowExample` | src/IB/IBMethod.cpp:330-333 | a ratio of 2, 4 and 4, for which a buffer cascades and is too narrow along x |
| `SpecStreams.SpringRoundTrip` | src/IB/IBSpringForceSpecFactory.cpp:83-102 | reading yields a spec and a rest exactly if the stream is that consistent spec as written, then the rest |
| `SpecStreams.PackSpring` | src/IB/IBSpringForceSpec-inl.h:188-209 | what is appended to the stream |
| `SpecLayouts.SpringLayout` | src/IB/IBSpringForceSpec-inl.h:188-209 | where in it every number stands: count, master, slaves, force functions, then each spring's parameters behind their number |
| `SpecLayouts.BeamLayout` | src/IB/IBBeamForceSpec-inl.h:181-205 | the same for beams: pairs of neighbours, rigidities, curvatures |
| `SpecLayouts.RodLayout` | src/IB/IBRodForceSpec-inl.h:168-184 | the same for rods: next nodes, ten parameters each |
| `SpecStreams.UnpackSpring` | src/IB/IBSpringForceSpecFactory.cpp:83-102 | the object filled and the cursor left behind it |
| `SpecStreams.SpringDataStreamSize` | src/IB/IBSpringForceSpec-inl.h:173-186 | the announced size is the number of bytes packing writes |
| `SpecStreams.BeamRoundTrip` | src/IB/IBBeamForceSpecFactory.cpp:86-108 | the round trip for beams, neighbour pairs interleaved |
| `SpecStreams.PackBeam` | src/IB/IBBeamForceSpec-inl.h:181-205 | what is appended to the stream |
| `SpecStreams.UnpackBeam` | src/IB/IBBeamForceSpecFactory.cpp:86-108 | the object filled and the cursor left behind it |
| `SpecStreams.BeamDataStreamSize` | src/IB/IBBeamForceSpec-inl.h:173-179 | the size formula is the number of bytes packing writes |
| `SpecStreams.RodRoundTrip` | src/IB/IBRodForceSpecFactory.cpp:84-99 | the round trip for rods |
| `SpecStreams.PackRod` | src/IB/IBRodForceSpec-inl.h:168-184 | what is appended to the stream |
| `SpecStreams.UnpackRod` | src/IB/IBRodForceSpecFactory.cpp:84-99 | the object filled and the cursor left behind it |
| `SpecStreams.RodDataStreamSize` | src/IB/IBRodForceSpec-inl.h:157-166 | the size formula is the number of bytes packing writes |
| `RestartKeys.NamesInjective` | src/IB/IBStandardSourceGen.cpp:317-347 | no two stored values share a name, over all prefixes, levels and numbers |
| `SourceRestart.IBStandardSourceGen.PutToDatabase` | src/IB/IBStandardSourceGen.cpp:311-349 | every promised entry of every table is in the database under its name |
| `SourceRestart.StoredUnder` | src/IB/IBStandardSourceGen.cpp:319-347 | which value stands under which name, prefix by prefix |
| `SourceRestart.IBStandardSourceGen.GetFromRestart` | src/IB/IBStandardSourceGen.cpp:355-417 | the tables become the saved ones, each cut to its counts |
| `SourceRestart.SavedDetermines` | src/IB/IBStandardSourceGen.cpp:355-417 | the database alone determines what is loaded |
| `SourceRestart.RestoresIff` | src/IB/IBStandardSourceGen.cpp:311-417 | saving and loading restores every table exactly if every row is as long as its count |
| `SourceRestart.Restart` | src/IB/IBStandardSourceGen.cpp:311-417 | the same for a generator saved into an empty database and made again from it |
| `SourceRestart.IBStandardSourceGen.InitializeLevelData` | src/IB/IBStandardSourceGen.cpp:174-213 | the tables after a level is initialised: registered names and radii, as many perimeter nodes of each source as places at which it occurs among all processes' nodes, old strengths and pressures and zero for new sources; the early return for no sources |
| `SourceRestart.InitializedMatches` | src/IB/IBStandardSourceGen.cpp:189-190 | rows stay as long as their counts unless a level that had sources now has none |
| `SourceRestart.StaleRowsAreLost` | src/IB/IBStandardSourceGen.cpp:189-190 | in that case a restart does not restore the tables |
| `SourceLocations.GetSourceLocations` | src/IB/IBStandardSourceGen.cpp:229-285 | the reduction over processes gives every source the sum of its nodes' shares |
| `SourceLocations.LocationIsMean` | src/IB/IBStandardSourceGen.cpp:248-266 | those shares add up to the sum of the positions over the count |
| `SourceLocations.LocationInside` | src/IB/IBStandardSourceGen.cpp:248-266 | with counted nodes a source lies in every box that holds its perimeter |

## Left out

- Floating-point rounding, the tolerances of `equalEps` and the summation order of message passing: arithmetic is exact and the three times of a step are distinct reals.
- Two space dimensions; the C integer width (node numbers and counts are unbounded).
- FORWARD_EULER in the driver: with one cycle no branch advances the positions.
- The nonzero structure of the Jacobian and its assembly on more than one process: cached indices are compared with global ranges there.
- The Navier-Stokes solver, interpolation and spreading kernels, force, stress and pressure functions: given functions of what they are passed.
- `IBImplicitStaggeredHierarchyIntegrator`: marked not implemented in the source.
- `ForceAssembly.StandardForceGen.InitializeLevelData`: one level at a time; several levels do not interact here.
- `IBMethods.IBMethod.InterpolateVelocity`: the vectors of all levels are one nodal vector, so the loops over levels are not seen.
- `IBMethods.IBMethod.GetForceData`: a force vector that exists but was not computed in the step is taken as zero.
- `IBExplicitIntegrator.ExplicitIntegrator.AdvanceHierarchy`: regridding, the check for a changed step size, the CFL estimate and callbacks are not seen.
- `IBExplicitIntegrator.ExplicitIntegrator.IntegrateHierarchy`: source strengths are a function of positions and time; interpolated pressures are not fed back into them.
- `ForceJacobian.SlopeOfCubic`: the factor of the difference step, the cube root of the rounding unit, is a positive parameter.
- `KirchhoffRods.HalfDirectors`: orthonormality only; handedness would need the determinant of the root.
- `RodLoads.LoadIsObjective`: the segment length ds is required to be nonzero, since the code divides by it; so it is for the other loads.
- `MeterGeometry.InitMeterElements`: no wedge may be degenerate, since the code divides by the squared area of every patch.
- `FlowMeters.ReadInstrumentData`: the gathering of perimeter positions and velocities over processes, and the pressure at the centroid, are not seen; where the total area is zero the code's quotient is undefined and the model has no mean pressure.
- `MeterVisits.VisitsAreCanonical`: refinement is nested, patches of a level are disjoint and level zero holds the patch centres, as the grid library promises.
- `FESplitForces.SplitMatchesUnsplit`: the same boundary quadrature is used for both forms; the code chooses its own for spreading. Periodic constraints and the projection that follows assembly are not seen.
- `FESplitForces.JumpsDropTangentialPart`: what the jump conditions put onto the grid instead is not modelled.
- `SpecStreams.UnpackSpring`: a stream that does not hold a specification, which the code would read past, is excluded; so it is for beams and rods.
- `SourceRestart.IBStandardSourceGen.PutToDatabase`: at least one level in both count tables, whose first elements the code takes the address of, and rows no shorter than their counts, beyond which it would read.
- `SourceRestart.IBStandardSourceGen.GetFromRestart`: the values a row is filled with before it is read are not seen.
- `spreadFluidSource` and the `cos_delta` sums: they need trigonometric sums and cell weights.
- Silo output, logs, timers, input parsing, version checks, class registration and getters; strategy base classes, the strategy set, anchor and instrument specifications and the advection example: plumbing.
