/**
 * The DNS value types the resolver core handles: IP addresses as in Rust's
 * `std::net::IpAddr`, and the record, record-type, class and response-code
 * types of the DNS protocol library. Record payloads other than A and AAAA
 * addresses are opaque bytes.
 */
module Dns {

  import opened Wrappers

  newtype byte = x: int | 0 <= x < 0x100
  newtype u16 = x: int | 0 <= x < 0x1_0000
  newtype u32 = x: int | 0 <= x < 0x1_0000_0000
  newtype u128 = x: int | 0 <= x < 0x1_0000_0000_0000_0000_0000_0000_0000_0000

  /** An IPv4 address, by its four octets (`a.b.c.d`). */
  datatype Ipv4 = Ipv4(a: byte, b: byte, c: byte, d: byte)

  /** An IPv6 address, by its 128 bits. */
  datatype Ipv6 = Ipv6(bits: u128)

  datatype IpAddr = V4(v4: Ipv4) | V6(v6: Ipv6)

  /**
   * A DNS record type. `A` (RFC 1035 section 3.4.1) and `AAAA` (RFC 3596
   * section 2.1) are the address types; every other type is `Other`, named
   * by its numeric code. The protocol library decodes codes 1 and 28 as `A`
   * and `AAAA`, so `Other` never carries them.
   */
  datatype RType = A | AAAA | Other(code: OtherCode)

  /** The type codes other than those of A (1) and AAAA (28). */
  type OtherCode = c: u16 | c != 1 && c != 28

  datatype DnsClass = IN | OtherClass(code: u16)

  datatype RData = AData(a: Ipv4) | AAAAData(aaaa: Ipv6) | OpaqueData(bytes: seq<byte>)

  /** A domain name as produced by the protocol library's name parser. */
  type Name = string

  datatype Record = Record(name: Name, rrType: RType, dnsClass: DnsClass, ttl: u32, rdata: RData)

  /** The response codes this server produces (RFC 1035 section 4.1.1: 0, 2 and 4). */
  datatype ResponseCode = NoError | ServFail | NotImp

  /** The address a record carries, if it is an A or AAAA record. */
  function AddressOf(r: Record): Option<IpAddr>
  {
    match r.rdata
    case AData(a) => Some(V4(a))
    case AAAAData(a) => Some(V6(a))
    case OpaqueData(_) => None
  }
}
