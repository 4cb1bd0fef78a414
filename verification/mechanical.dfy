/**
 * The two hand-written coefficient functions of the elastostatic problem:
 * the isotropic stiffness tensor built from the Lamé parameters, and the
 * constant body force.
 */
module Mechanical {
  import opened Axes

  /** Entry (i, j) of the unit symmetric (identity) tensor. */
  function Identity(i: nat, j: nat): real
  {
    if i == j then 1.0 else 0.0
  }

  /** λ I_ij I_kl + μ (I_ik I_jl + I_il I_jk), the isotropic stiffness entry for Lamé parameters `lam` = λ and `mu` = μ. */
  function IsotropicEntry(lam: real, mu: real, i: nat, j: nat, k: nat, l: nat): real
  {
    lam * Identity(i, j) * Identity(k, l) + mu * (Identity(i, k) * Identity(j, l) + Identity(i, l) * Identity(j, k))
  }

  /** The index pattern under which an entry can be non-zero. */
  predicate PairedIndices(i: nat, j: nat, k: nat, l: nat)
  {
    (i == j && k == l) || (i == k && j == l) || (i == l && j == k)
  }

  /** Minor and major symmetry of the isotropic entries. */
  lemma IsotropicEntrySymmetries(lam: real, mu: real, i: nat, j: nat, k: nat, l: nat)
    ensures IsotropicEntry(lam, mu, i, j, k, l) == IsotropicEntry(lam, mu, j, i, k, l)
    ensures IsotropicEntry(lam, mu, i, j, k, l) == IsotropicEntry(lam, mu, i, j, l, k)
    ensures IsotropicEntry(lam, mu, i, j, k, l) == IsotropicEntry(lam, mu, k, l, i, j)
  {
  }

  /**
   * The entries by index pattern: λ + 2μ on the diagonal, λ for
   * C_iijj, μ for C_ijij and C_ijji (i != j), and zero when the indices do
   * not pair up.
   */
  lemma IsotropicEntryValues(lam: real, mu: real, i: nat, j: nat, k: nat, l: nat)
    ensures IsotropicEntry(lam, mu, i, i, i, i) == lam + 2.0 * mu
    ensures i != j ==> IsotropicEntry(lam, mu, i, i, j, j) == lam
    ensures i != j ==> IsotropicEntry(lam, mu, i, j, i, j) == mu
    ensures i != j ==> IsotropicEntry(lam, mu, i, j, j, i) == mu
    ensures !PairedIndices(i, j, k, l) ==> IsotropicEntry(lam, mu, i, j, k, l) == 0.0
  {
  }

  predicate InCube(dim: nat, i: nat, j: nat, k: nat, l: nat)
  {
    i < dim && j < dim && k < dim && l < dim
  }

  /** (a, b, c, d) comes before (i, j, k, l) in the loops' order. */
  predicate Before(a: nat, b: nat, c: nat, d: nat, i: nat, j: nat, k: nat, l: nat)
  {
    a < i || (a == i && (b < j || (b == j && (c < k || (c == k && d < l)))))
  }

  ghost predicate FilledBefore(C: array4<real>, dim: nat, lam: real, mu: real, i: nat, j: nat, k: nat, l: nat)
    reads C
    requires C.Length0 == dim && C.Length1 == dim && C.Length2 == dim && C.Length3 == dim
  {
    forall a: nat, b: nat, c: nat, d: nat ::
      InCube(dim, a, b, c, d) && Before(a, b, c, d, i, j, k, l) ==> C[a, b, c, d] == IsotropicEntry(lam, mu, a, b, c, d)
  }

  ghost predicate IsStiffnessTensor(C: array4<real>, dim: nat, lam: real, mu: real)
    reads C
  {
    && C.Length0 == dim && C.Length1 == dim && C.Length2 == dim && C.Length3 == dim
    && forall i: nat, j: nat, k: nat, l: nat ::
         InCube(dim, i, j, k, l) ==> C[i, j, k, l] == IsotropicEntry(lam, mu, i, j, k, l)
  }

  /**
   * The stiffness tensor of an isotropic material, filled by four nested
   * loops. It does not depend on the point it is asked at; it has the minor
   * and major symmetries.
   */
  method StiffnessTensorValue(dim: nat, lam: real, mu: real, p: seq<real>) returns (C: array4<real>)
    ensures fresh(C)
    ensures IsStiffnessTensor(C, dim, lam, mu)
    ensures forall i: nat, j: nat, k: nat, l: nat :: InCube(dim, i, j, k, l) ==>
      C[i, j, k, l] == C[j, i, k, l] && C[i, j, k, l] == C[i, j, l, k] && C[i, j, k, l] == C[k, l, i, j]
  {
    C := new real[dim, dim, dim, dim]((i, j, k, l) => 0.0);
    for i := 0 to dim
      invariant FilledBefore(C, dim, lam, mu, i, 0, 0, 0)
    {
      for j := 0 to dim
        invariant FilledBefore(C, dim, lam, mu, i, j, 0, 0)
      {
        for k := 0 to dim
          invariant FilledBefore(C, dim, lam, mu, i, j, k, 0)
        {
          for l := 0 to dim
            invariant FilledBefore(C, dim, lam, mu, i, j, k, l)
          {
            C[i, j, k, l] := lam * Identity(i, j) * Identity(k, l) +
                             mu * (Identity(i, k) * Identity(j, l) + Identity(i, l) * Identity(j, k));
          }
        }
      }
    }
    forall i: nat, j: nat, k: nat, l: nat | InCube(dim, i, j, k, l)
      ensures C[i, j, k, l] == C[j, i, k, l] && C[i, j, k, l] == C[i, j, l, k] && C[i, j, k, l] == C[k, l, i, j]
    {
      IsotropicEntrySymmetries(lam, mu, i, j, k, l);
    }
  }

  /** The body force: -10 along the vertical axis, 0 along the others, wherever it is asked. */
  method RightHandSideValue(dim: nat, p: seq<real>) returns (out: seq<real>)
    requires SupportedDim(dim)
    ensures |out| == dim
    ensures out[Z(dim)] == -10.0
    ensures forall i :: 0 <= i < dim && i != Z(dim) ==> out[i] == 0.0
  {
    out := seq(dim, _ => 0.0);
    out := out[Z(dim) := -10.0];
  }
}
