/** Interface names and IPv4 subnets shared by the firewall and the recovery models. */
module Net {

  type Interface = string

  /** A canonical IPv4 network: the first address and the prefix length. */
  datatype Subnet = Subnet(base: nat, prefix: nat)

  /** What protected client traffic is recognised by. */
  datatype Identity = Identity(interface: Interface, subnet: Subnet)

  /** The most identities the maintenance guard takes. */
  const GUARD_BUDGET: nat := 8
}
