/** The layout of a Kirchhoff rod specification (IBRodForceSpec). */
module RodSpecs {

  const NUM_MATERIAL_PARAMS: nat := 10
}
