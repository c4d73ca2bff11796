/** The colour tokens of the design system that the modelled components read. */
module Theme {
  const PrimaryMain := "#3A86FF"
  const PrimaryLight := "#61A0FF"
  const PrimaryDark := "#2563EB"
  const SecondaryMain := "#8B5CF6"
  const SecondaryLight := "#A78BFA"
  const AccentAurora := "#00BFFF"
  const AccentCosmic := "#FF3D71"
  const AccentEnergy := "#FFAA00"
  const AccentNature := "#10B981"
  const GradientAurora := "linear-gradient(135deg, #00BFFF 0%, #10B981 100%)"

  function RadialGradient(inner: string, outer: string): string {
    "radial-gradient(circle, " + inner + ", " + outer + ")"
  }
}
