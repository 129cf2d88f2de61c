/** Devices, their attributes and the attribute keys that discovery owns
    (pkg/consts/consts.go). */
module Attributes {

  datatype Option<+T> = None | Some(value: T)

  type QualifiedName = string

  /** One-of value of a device attribute; the API keeps one pointer per kind. */
  datatype Attribute = Attribute(
    intValue: Option<int>,
    boolValue: Option<bool>,
    stringValue: Option<string>,
    versionValue: Option<string>)

  type Attrs = map<QualifiedName, Attribute>

  datatype Device = Device(name: string, attributes: Attrs)

  function OfString(s: string): Attribute { Attribute(None, None, Some(s), None) }
  function OfInt(i: int): Attribute { Attribute(Some(i), None, None, None) }
  function OfBool(b: bool): Attribute { Attribute(None, Some(b), None, None) }

  const DRIVER_NAME := "sriovnetwork.k8snetworkplumbingwg.io"
  const STANDARD_PREFIX := "resource.kubernetes.io/"

  const PCI_ADDRESS := DRIVER_NAME + "/pciAddress"
  const PF_NAME := DRIVER_NAME + "/PFName"
  const ESWITCH_MODE := DRIVER_NAME + "/EswitchMode"
  const VENDOR_ID := DRIVER_NAME + "/vendor"
  const DEVICE_ID := DRIVER_NAME + "/deviceID"
  const PF_DEVICE_ID := DRIVER_NAME + "/pfDeviceID"
  const VF_ID := DRIVER_NAME + "/vfID"
  const LINK_TYPE := DRIVER_NAME + "/linkType"
  const RDMA_CAPABLE := DRIVER_NAME + "/rdmaCapable"
  const PF_PCI_ADDRESS := DRIVER_NAME + "/pfPciAddress"
  const MULTUS_DEVICE_ID := "k8s.cni.cncf.io/deviceID"
  const MULTUS_RESOURCE_NAME := "k8s.cni.cncf.io/resourceName"
  const STANDARD_PCI_ADDRESS := STANDARD_PREFIX + "pciBusID"
  const PCIE_ROOT := STANDARD_PREFIX + "pcieRoot"
  const NUMA_NODE := "dra.net/numaNode"

  /** Keys a policy may never override. */
  const RESERVED: set<QualifiedName> := {
    VENDOR_ID, DEVICE_ID, PF_DEVICE_ID, PCI_ADDRESS, MULTUS_DEVICE_ID, PF_NAME, ESWITCH_MODE,
    VF_ID, PCIE_ROOT, PF_PCI_ADDRESS, STANDARD_PCI_ADDRESS, LINK_TYPE, RDMA_CAPABLE, NUMA_NODE
  }

  /** Two attribute maps that no reader of reserved keys can tell apart. */
  ghost predicate AgreeOnReserved(a: Attrs, b: Attrs) {
    forall k :: k in RESERVED ==> (k in a <==> k in b) && (k in a ==> a[k] == b[k])
  }
}
