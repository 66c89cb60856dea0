/** The records of types.ts: a finding's severity, the kinds of device the
    scanner knows, a vulnerability finding and a discovered device. */
module Types {

  /** A value that may be absent (`undefined` / `null` in the source). */
  datatype Option<T> = None | Some(value: T)

  /** Ordinal risk classification, Low < Medium < High. */
  datatype Severity = Low | Medium | High

  datatype DeviceType = Router | Camera | Lightbulb | SmartPlug | Thermostat | Unknown

  /** A vulnerability record. The scanner only ever produces the five entries
      of its catalogue (services/scannerService.ts:7-13) and the informational
      note of services/scannerService.ts:56-61, so the type is that closed set
      of records and the record's four fields are functions of it. */
  datatype Vulnerability =
    | DefaultCredentials | UnsecuredTelnet | UnsecuredFtp | UnencryptedAdminPanel | OutdatedFirmware
    | StandardPortsOpen
  {
    function name(): string
    {
      match this
      case DefaultCredentials => "Default Credentials"
      case UnsecuredTelnet => "Unsecured Telnet"
      case UnsecuredFtp => "Unsecured FTP"
      case UnencryptedAdminPanel => "Unencrypted Admin Panel"
      case OutdatedFirmware => "Outdated Firmware (Simulated)"
      case StandardPortsOpen => "Standard Ports Open"
    }

    function severity(): Severity
    {
      match this
      case DefaultCredentials | UnsecuredTelnet => High
      case UnsecuredFtp | UnencryptedAdminPanel | OutdatedFirmware => Medium
      case StandardPortsOpen => Low
    }

    function description(): string
    {
      match this
      case DefaultCredentials =>
        "The device is using a default factory password which is publicly known."
      case UnsecuredTelnet =>
        "Telnet service is enabled, which transmits data, including credentials, in plaintext."
      case UnsecuredFtp =>
        "FTP service is enabled, which can be vulnerable to brute-force attacks and sniffing."
      case UnencryptedAdminPanel =>
        "The device's web administration panel is served over HTTP, not HTTPS."
      case OutdatedFirmware =>
        "Firmware may be outdated, potentially missing critical security patches."
      case StandardPortsOpen =>
        "Standard ports like HTTP (80) and HTTPS (443) are open for normal operation."
    }

    function recommendation(): string
    {
      match this
      case DefaultCredentials =>
        "Change the default password immediately through the device's admin interface."
      case UnsecuredTelnet =>
        "Disable Telnet service and use SSH if remote access is required."
      case UnsecuredFtp =>
        "Disable FTP if not needed, or use a secure alternative like SFTP."
      case UnencryptedAdminPanel =>
        "Enable HTTPS on the device's admin panel. If not possible, only access it from a trusted network."
      case OutdatedFirmware =>
        "Check the manufacturer's website for firmware updates and apply them."
      case StandardPortsOpen =>
        "Ensure all services running on these ports are secure and up-to-date. No immediate action required if properly configured."
    }
  }

  /** A device as the scan reports it; `openPorts` is kept ascending and `id` is
      derived from the hardware address. */
  datatype Device = Device(
    id: string,
    ip: string,
    mac: string,
    vendor: string,
    deviceType: DeviceType,
    risk: Severity,
    openPorts: seq<int>,
    vulnerabilities: seq<Vulnerability>)

  /** The string value of a `Severity` enum member. */
  function SeverityName(s: Severity): string
  {
    match s
    case Low => "Low"
    case Medium => "Medium"
    case High => "High"
  }

  /** The string literal a `DeviceType` stands for. */
  function DeviceTypeName(t: DeviceType): string
  {
    match t
    case Router => "Router"
    case Camera => "Camera"
    case Lightbulb => "Lightbulb"
    case SmartPlug => "Smart-Plug"
    case Thermostat => "Thermostat"
    case Unknown => "Unknown"
  }

  /** Position of a severity in the order Low < Medium < High. */
  function Rank(s: Severity): (r: nat)
    ensures r <= 2
    ensures r == 0 <==> s == Low
    ensures r == 2 <==> s == High
  {
    match s
    case Low => 0
    case Medium => 1
    case High => 2
  }
}
