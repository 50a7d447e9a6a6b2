/** Removal of the data image of a host: controllers/common.go. */
module DataImages {
  import opened Base
  import opened Hub

  datatype RemovalFaults = RemovalFaults(
    getImage: bool,
    deleteImage: WriteFault,
    gone: bool,          // a successful delete removes the object at once rather than marking it
    getHost: bool,
    patchHost: WriteFault)

  /** The world afterwards, the image that was found, and whether an error is returned. */
  datatype RemovalEnd = RemovalEnd(w: World, image: Option<DataImage>, err: bool)

  function DeleteDataImage(w: World, ref: HostRef, f: RemovalFaults): RemovalEnd {
    if f.getImage then RemovalEnd(w, None, true)
    else if ref !in w.images then RemovalEnd(w, None, false)
    else if f.deleteImage == Lost then RemovalEnd(w, Some(w.images[ref]), true)
    else RemovalEnd(
      w.(images := if f.gone then w.images - {ref} else w.images[ref := w.images[ref].(terminating := true)]),
      Some(w.images[ref]), f.deleteImage != Fine)
  }

  /** Deletes the image of a host and asks the host to reboot, so that the deletion can finish. */
  function RemoveDataImage(w: World, ref: HostRef, f: RemovalFaults): (r: RemovalEnd)
    ensures r.w == w.(images := r.w.images, hosts := r.w.hosts)
    ensures !r.err ==> ref !in r.w.images || r.w.images[ref].terminating
    ensures !r.err && r.image.None? && ref in r.w.images ==> ref !in w.hosts
    ensures forall h :: h != ref && h in w.images ==> h in r.w.images && r.w.images[h] == w.images[h]
    ensures forall h :: h in r.w.images ==>
              h in w.images && (r.w.images[h] == w.images[h] || r.w.images[h] == w.images[h].(terminating := true))
    ensures r.w.hosts.Keys == w.hosts.Keys
  {
    var d := DeleteDataImage(w, ref, f);
    if d.err || d.image.None? then d
    else if f.getHost then d.(err := true)
    else if ref !in w.hosts then RemovalEnd(d.w, None, false)
    else if w.hosts[ref].reboot then d
    else if f.patchHost == Lost then d.(err := true)
    else d.(w := d.w.(hosts := w.hosts[ref := w.hosts[ref].(reboot := true)]), err := f.patchHost != Fine)
  }

  // ------------------------------------------------- the code, step by step

  method Delete(c: Cluster, ref: HostRef, f: RemovalFaults) returns (image: Option<DataImage>, err: bool)
    modifies c
    ensures RemovalEnd(c.State(), image, err) == DeleteDataImage(old(c.State()), ref, f)
  {
    if f.getImage {
      return None, true;
    }
    if ref !in c.images {
      return None, false;
    }
    image := Some(c.images[ref]);
    if f.deleteImage == Lost {
      return image, true;
    }
    if f.gone {
      c.images := c.images - {ref};
    } else {
      c.images := c.images[ref := image.value.(terminating := true)];
    }
    err := f.deleteImage != Fine;
  }

  method RebootHost(c: Cluster, ref: HostRef, fault: WriteFault) returns (err: bool)
    requires ref in c.hosts
    modifies c`hosts
    ensures err <==> fault != Fine && !old(c.hosts[ref].reboot)
    ensures c.hosts == if old(c.hosts[ref].reboot) || fault == Lost then old(c.hosts)
                       else old(c.hosts)[ref := old(c.hosts[ref]).(reboot := true)]
  {
    var host := c.hosts[ref];
    if host.reboot {
      return false;
    }
    host := host.(reboot := true);
    if fault == Lost {
      return true;
    }
    c.hosts := c.hosts[ref := host];
    err := fault != Fine;
  }

  method Remove(c: Cluster, ref: HostRef, f: RemovalFaults) returns (image: Option<DataImage>, err: bool)
    modifies c
    ensures RemovalEnd(c.State(), image, err) == RemoveDataImage(old(c.State()), ref, f)
  {
    image, err := Delete(c, ref, f);
    if err || image.None? {
      return;
    }
    if f.getHost {
      return image, true;
    }
    if ref !in c.hosts {
      return None, false;
    }
    err := RebootHost(c, ref, f.patchHost);
  }
}
