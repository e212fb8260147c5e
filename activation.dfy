/** The ReLU activation and the subgradient the backward pass uses for it. */
module Activation {

  /**
   * The derivative of ReLU, with the subgradient at 0 fixed to 0: the
   * derivative is 1 exactly on the positive reals.
   */
  function ReluDerivative(x: real): (r: real)
    ensures r == 0.0 || r == 1.0
    ensures r == 1.0 <==> x > 0.0
  {
    if x > 0.0 then 1.0 else 0.0
  }

  /**
   * ReLU: the larger of x and 0. The backward pass only keeps the activated
   * value, so it matters that the derivative read off the activated value is
   * the derivative at the original argument.
   */
  function Relu(x: real): (r: real)
    ensures r >= 0.0 && r >= x
    ensures x > 0.0 ==> r == x
    ensures x <= 0.0 ==> r == 0.0
    ensures r == ReluDerivative(x) * x
    ensures ReluDerivative(r) == ReluDerivative(x)
  {
    if x > 0.0 then x else 0.0
  }
}
