/**
 * deployer/deployer.go: the Deployer interface. It has two implementations (the sbit and the
 * eth backend, in packages this model does not contain), so a Deployer value is one of two
 * tagged backend instances.
 */
module Deployers {

  /** An opaque handle to a backend object built by that backend's own constructor. */
  type Instance = nat

  /** The dynamic type behind a deployer.Deployer interface value. */
  datatype Backend = SbitDeployer(instance: Instance) | EthDeployer(instance: Instance)
}
