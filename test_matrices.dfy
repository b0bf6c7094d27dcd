/** The literal longitudinal model used by the `__main__` blocks of the two
    modal-extraction files: the state order is velocity, flight-path angle,
    angle of attack, pitch rate, pitch angle, altitude. */
module TestMatrices {
  import opened Matrices

  const TestA: Matrix := [
    [-0.034, -0.0237, -0.0361, 0.0, 0.0, 0.0],
    [0.0461, 0.0, 1.2484, 0.0, 0.0, 0.0],
    [-0.0461, 0.0, -1.2484, 1.0, 0.0, 0.0],
    [0.0, 0.0, -50.2354, -0.6048, 0.0, 0.0],
    [0.0, 0.0, 0.0, 1.0, 0.0, 0.0],
    [0.0, 414.0176, 0.0, 0.0, 0.0, 0.0]]

  const TestB: Matrix := [[0.0], [0.1785], [-0.1785], [-31.4385], [0.0], [0.0]]
}
