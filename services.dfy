/**
 * The service name table of the port scanner: a fixed map from well-known
 * port numbers to labels, consulted when a probe finds a port open.
 */
module Services {

  /** The 23 entries of the table; 8080, 8888, 9090 and 8000 share one label. */
  const ServiceTable: map<int, string> := map[
    21 := "FTP", 22 := "SSH", 23 := "Telnet", 25 := "SMTP", 53 := "DNS",
    80 := "HTTP", 110 := "POP3", 135 := "RPC", 139 := "NetBIOS", 143 := "IMAP",
    443 := "HTTPS", 993 := "IMAPS", 995 := "POP3S", 1723 := "PPTP",
    3389 := "RDP", 5900 := "VNC", 8080 := "HTTP-Alt", 8443 := "HTTPS-Alt",
    8888 := "HTTP-Alt", 9090 := "HTTP-Alt", 3000 := "Node.js", 5000 := "Flask",
    8000 := "HTTP-Alt"
  ]

  /** The label a table miss falls back to. */
  const UnknownService := "Unknown"

  /** The service label of a port: its table entry, or "Unknown" when it has none. */
  function ServiceName(port: int): (name: string)
    ensures name != UnknownService <==> port in ServiceTable
    ensures name == "HTTP-Alt" <==> port in [8080, 8888, 9090, 8000]
    ensures port in ServiceTable ==> name == ServiceTable[port]
  {
    if port in ServiceTable then ServiceTable[port] else UnknownService
  }
}
